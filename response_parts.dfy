/** How the two image routes read a model response. The generate route
    takes the FIRST part that carries image data and stops; the chat-edit
    route scans every part, so the LAST image part and the last text part
    win. */
module ResponseParts {
  import opened Wrappers
  import opened Types

  /** `part.inlineData && part.inlineData.data`: the image payload of a part,
      if it has a non-empty one. */
  function ImageDataOf(p: ResponsePart): (r: Option<string>)
    ensures r.Some? ==> r.value != ""
  {
    if p.inlineData.Some? && p.inlineData.value.data.Some? && p.inlineData.value.data.value != ""
    then p.inlineData.value.data
    else None
  }

  /** A part the chat-edit scan treats as text: no image data, and a
      non-empty `text`. */
  predicate IsTextPart(p: ResponsePart)
  {
    ImageDataOf(p).None? && p.text.Some? && p.text.value != ""
  }

  /** The parts of the first candidate, or `[]` when there are none. */
  function FirstCandidateParts(r: ModelResponse): seq<ResponsePart>
    requires r.candidates.Some? && |r.candidates.value| > 0
  {
    r.candidates.value[0].parts.GetOr([])
  }

  /** Whether the response has no candidate at all (field missing or empty). */
  predicate NoCandidates(r: ModelResponse)
  {
    r.candidates.None? || |r.candidates.value| == 0
  }

  /** The payload of the first part that carries image data. */
  function FirstImageData(parts: seq<ResponsePart>): (r: Option<string>)
    ensures r.Some? ==> r.value != ""
    ensures r.None? <==> forall i :: 0 <= i < |parts| ==> ImageDataOf(parts[i]).None?
    ensures r.Some? ==> exists i :: 0 <= i < |parts| && ImageDataOf(parts[i]) == r
                          && forall j :: 0 <= j < i ==> ImageDataOf(parts[j]).None?
  {
    if |parts| == 0 then None
    else if ImageDataOf(parts[0]).Some? then
      ImageDataOf(parts[0])
    else
      var r := FirstImageData(parts[1..]);
      assert forall i :: 1 <= i < |parts| ==> parts[i] == parts[1..][i - 1];
      if r.Some? then
        var i :| 0 <= i < |parts[1..]| && ImageDataOf(parts[1..][i]) == r
                 && forall j :: 0 <= j < i ==> ImageDataOf(parts[1..][j]).None?;
        assert ImageDataOf(parts[i + 1]) == r;
        r
      else
        r
  }

  /** The payload of the last part that carries image data. */
  function LastImageData(parts: seq<ResponsePart>): (r: Option<string>)
    ensures r.Some? ==> r.value != ""
    ensures r.None? <==> forall i :: 0 <= i < |parts| ==> ImageDataOf(parts[i]).None?
    ensures r.Some? ==> exists i :: 0 <= i < |parts| && ImageDataOf(parts[i]) == r
                          && forall j :: i < j < |parts| ==> ImageDataOf(parts[j]).None?
  {
    if |parts| == 0 then None
    else
      var last := |parts| - 1;
      if ImageDataOf(parts[last]).Some? then ImageDataOf(parts[last])
      else
        var r := LastImageData(parts[..last]);
        assert forall i :: 0 <= i < last ==> parts[i] == parts[..last][i];
        if r.Some? then
          var k :| 0 <= k < last && ImageDataOf(parts[..last][k]) == r
                   && forall j :: k < j < last ==> ImageDataOf(parts[..last][j]).None?;
          assert ImageDataOf(parts[k]) == r;
          r
        else
          r
  }

  /** The text of the last text part, or `default` when there is none. */
  function LastText(parts: seq<ResponsePart>, default: string): (r: string)
    ensures (forall i :: 0 <= i < |parts| ==> !IsTextPart(parts[i])) ==> r == default
    ensures (exists i :: 0 <= i < |parts| && IsTextPart(parts[i])) ==>
              exists i :: 0 <= i < |parts| && IsTextPart(parts[i]) && r == parts[i].text.value
                && forall j :: i < j < |parts| ==> !IsTextPart(parts[j])
  {
    if |parts| == 0 then default
    else
      var last := |parts| - 1;
      if IsTextPart(parts[last]) then parts[last].text.value
      else
        var r := LastText(parts[..last], default);
        assert forall i :: 0 <= i < last ==> parts[i] == parts[..last][i];
        if exists i :: 0 <= i < last && IsTextPart(parts[i]) then
          var k :| 0 <= k < last && IsTextPart(parts[..last][k]) && r == parts[..last][k].text.value
                   && forall j :: k < j < last ==> !IsTextPart(parts[..last][j]);
          assert IsTextPart(parts[k]) && r == parts[k].text.value;
          r
        else
          r
  }

  /** The two scan policies disagree as soon as two parts carry different
      images: the generate route keeps the first, the chat-edit route the
      last. */
  lemma FirstAndLastImageDiffer(a: string, b: string)
    requires a != "" && b != "" && a != b
    ensures var parts := [ResponsePart(Some(InlineData(None, Some(a))), None),
                          ResponsePart(Some(InlineData(None, Some(b))), None)];
            FirstImageData(parts) == Some(a) && LastImageData(parts) == Some(b)
  {
    var parts := [ResponsePart(Some(InlineData(None, Some(a))), None),
                  ResponsePart(Some(InlineData(None, Some(b))), None)];
    assert parts[..1] == [parts[0]];
  }
}
