/** The two data-URL operations the code performs (RFC 2397, section 3):
    wrapping a base64 payload as a PNG data URL, and taking the payload
    back with `url.split(',')[1]`. */
module DataUrl {
  import opened Wrappers
  import opened JsString

  /** The media-type and encoding part every generated image is given. */
  const PngHeader := "data:image/png;base64"

  /** `data:image/png;base64,${data}` */
  function PngDataUrl(data: string): string
  {
    PngHeader + "," + data
  }

  /** `url.split(',')[1]`: the text between the first and the second comma
      (or to the end); `undefined` (here `None`) when `url` has no comma. */
  function Payload(url: string): (r: Option<string>)
    ensures r.Some? ==> ',' !in r.value
    ensures r.None? <==> ',' !in url
  {
    var parts := Split(url, ',');
    if |parts| > 1 then
      assert url[|parts[0]|] == ',';
      Some(parts[1])
    else
      None
  }

  /** Only the segment between the first and second comma is taken, not the
      whole tail after the first comma. */
  lemma {:induction false} PayloadBetweenCommas(a: string, b: string, c: string)
    requires ',' !in a && ',' !in b
    ensures Payload(a + "," + b + "," + c) == Some(b)
  {
    assert a + "," + b + "," + c == a + [','] + (b + [','] + c);
    SplitAtFirst(a, ',', b + [','] + c);
    SplitAtFirst(b, ',', c);
  }

  /** Stripping the prefix undoes the wrapping for any comma-free payload
      (base64 text never holds a comma). */
  lemma {:induction false} PayloadOfPngDataUrl(data: string)
    requires ',' !in data
    ensures Payload(PngDataUrl(data)) == Some(data)
  {
    assert ',' !in PngHeader;
    assert PngDataUrl(data) == PngHeader + [','] + data;
    SplitAtFirst(PngHeader, ',', data);
    SplitWithoutSeparator(data, ',');
  }
}
