/** The subject-photo picker (src/components/SubjectImageUpload.tsx): the
    uploaded photo's preview, and the list of recently used photos kept
    most-recent-first, without two entries for the same image, capped at
    five and mirrored to local storage. */
module RecentFaces {
  import opened Wrappers
  import opened Types
  import opened Sequences

  const MaxRecentFaces := 5

  /** No two faces share an image. */
  predicate DistinctUrls(faces: seq<RecentFace>)
  {
    forall i, j :: 0 <= i < j < |faces| ==> faces[i].imageUrl != faces[j].imageUrl
  }

  /** `kept` holds every copy of each face whose image is not `url`, and
      no face whose image is. */
  ghost predicate KeepsEveryCopy(kept: seq<RecentFace>, faces: seq<RecentFace>, url: string)
  {
    forall x :: multiset(kept)[x] == if x.imageUrl != url then multiset(faces)[x] else 0
  }

  /** `faces.filter(f => f.imageUrl !== url)` */
  function FilterOutUrl(faces: seq<RecentFace>, url: string): (r: seq<RecentFace>)
    ensures IsSubsequence(r, faces)
    ensures forall i :: 0 <= i < |r| ==> r[i].imageUrl != url
    ensures forall i :: 0 <= i < |faces| && faces[i].imageUrl != url ==> faces[i] in r
  {
    if faces == [] then []
    else
      var rest := FilterOutUrl(faces[1..], url);
      assert forall i :: 1 <= i < |faces| ==> faces[i] == faces[1..][i - 1];
      if faces[0].imageUrl != url then [faces[0]] + rest else rest
  }

  /** `filter` keeps every copy of a face whose image differs, however
      often it repeats, and drops every face showing `url`. */
  lemma {:induction false} FilterKeepsEveryCopy(faces: seq<RecentFace>, url: string)
    ensures KeepsEveryCopy(FilterOutUrl(faces, url), faces, url)
  {
    if faces != [] {
      FilterKeepsEveryCopy(faces[1..], url);
      assert faces == [faces[0]] + faces[1..];
      assert multiset(faces) == multiset{faces[0]} + multiset(faces[1..]);
    }
  }

  /** The record for a newly uploaded photo; its thumbnail is the image
      itself. */
  function NewFace(id: string, url: string, uploadedAt: int): (face: RecentFace)
    ensures face.imageUrl == url && face.thumbnail == url
  {
    RecentFace(id, url, url, uploadedAt)
  }

  /** `[newFace, ...faces.filter(...)].slice(0, 5)` */
  function SaveToRecentFaces(faces: seq<RecentFace>, face: RecentFace): (r: seq<RecentFace>)
    ensures 1 <= |r| <= MaxRecentFaces && r[0] == face
    ensures forall i :: 1 <= i < |r| ==> r[i].imageUrl != face.imageUrl
    ensures IsSubsequence(r[1..], faces)
    ensures var kept := FilterOutUrl(faces, face.imageUrl);
            && |r| == (if 1 + |kept| > MaxRecentFaces then MaxRecentFaces else 1 + |kept|)
            && r[1..] == kept[..|r| - 1]
  {
    var kept := FilterOutUrl(faces, face.imageUrl);
    var all := [face] + kept;
    var r := if |all| > MaxRecentFaces then all[..MaxRecentFaces] else all;
    assert r[1..] == kept[..|r| - 1];
    PrefixOfSubsequence(kept, faces, |r| - 1);
    r
  }

  lemma {:induction false} FilterKeepsDistinct(faces: seq<RecentFace>, url: string)
    requires DistinctUrls(faces)
    ensures DistinctUrls(FilterOutUrl(faces, url))
  {
    if faces != [] {
      var rest := FilterOutUrl(faces[1..], url);
      assert DistinctUrls(faces[1..]) by {
        forall i, j | 0 <= i < j < |faces[1..]| ensures faces[1..][i].imageUrl != faces[1..][j].imageUrl {
          assert faces[1..][i] == faces[i + 1] && faces[1..][j] == faces[j + 1];
        }
      }
      FilterKeepsDistinct(faces[1..], url);
      if faces[0].imageUrl != url {
        SubsequenceElements(rest, faces[1..]);
        forall k | 0 <= k < |rest| ensures rest[k].imageUrl != faces[0].imageUrl {
          assert rest[k] in faces[1..];
        }
        PrependKeepsDistinct(faces[0], rest);
      }
    }
  }

  lemma PrependKeepsDistinct(face: RecentFace, rest: seq<RecentFace>)
    requires DistinctUrls(rest)
    requires forall k :: 0 <= k < |rest| ==> rest[k].imageUrl != face.imageUrl
    ensures DistinctUrls([face] + rest)
  {
    var r := [face] + rest;
    forall i, j | 0 <= i < j < |r| ensures r[i].imageUrl != r[j].imageUrl {
      if i > 0 {
        assert r[i] == rest[i - 1] && r[j] == rest[j - 1];
      } else {
        assert r[j] == rest[j - 1];
      }
    }
  }

  /** Saving keeps the images of the list distinct. */
  lemma SaveKeepsDistinct(faces: seq<RecentFace>, face: RecentFace)
    requires DistinctUrls(faces)
    ensures DistinctUrls(SaveToRecentFaces(faces, face))
  {
    var r := SaveToRecentFaces(faces, face);
    var kept := FilterOutUrl(faces, face.imageUrl);
    FilterKeepsDistinct(faces, face.imageUrl);
    assert r[1..] == kept[..|r| - 1];
    forall i, j | 0 <= i < j < |r| ensures r[i].imageUrl != r[j].imageUrl {
      if i > 0 {
        assert r[i] == kept[i - 1] && r[j] == kept[j - 1];
      }
    }
  }

  /** While the other faces fit in the four remaining places, saving drops
      none of them. */
  lemma SaveWithRoomKeepsOthers(faces: seq<RecentFace>, face: RecentFace)
    requires |FilterOutUrl(faces, face.imageUrl)| < MaxRecentFaces
    ensures forall i :: 0 <= i < |faces| && faces[i].imageUrl != face.imageUrl ==> faces[i] in SaveToRecentFaces(faces, face)
  {
    var kept := FilterOutUrl(faces, face.imageUrl);
    assert SaveToRecentFaces(faces, face) == [face] + kept;
  }

  /** Saving an image already in a full list moves it to the front without
      dropping anything else. */
  lemma SaveExistingKeepsOthers(faces: seq<RecentFace>, face: RecentFace, k: nat)
    requires k < |faces| && faces[k].imageUrl == face.imageUrl && |faces| <= MaxRecentFaces
    ensures forall i :: 0 <= i < |faces| && faces[i].imageUrl != face.imageUrl ==> faces[i] in SaveToRecentFaces(faces, face)
  {
    var kept := FilterOutUrl(faces, face.imageUrl);
    SubsequenceLength(kept, faces);
    assert faces[k] !in kept;
    SubsequenceShorter(kept, faces);
    assert SaveToRecentFaces(faces, face) == [face] + kept;
  }

  /** What local storage held under `recentFaces`. */
  datatype StoredFaces = NothingStored | Unparsable | Stored(faces: seq<RecentFace>)

  /** The load effect: the first five stored faces, or none. */
  function LoadRecentFaces(stored: StoredFaces): (r: seq<RecentFace>)
    ensures |r| <= MaxRecentFaces
    ensures stored.Stored? ==> |r| <= |stored.faces| && r == stored.faces[..|r|] && (|r| == |stored.faces| || |r| == MaxRecentFaces)
    ensures !stored.Stored? ==> r == []
  {
    if stored.Stored? then
      if |stored.faces| > MaxRecentFaces then stored.faces[..MaxRecentFaces] else stored.faces
    else []
  }

  class SubjectImageUpload {
    var preview: Option<string>
    var recentFaces: seq<RecentFace>
    /** The `recentFaces` entry of local storage. */
    var storage: StoredFaces
    /** The photo passed to `onImageSelect`, by file name. */
    var selection: Option<string>

    ghost predicate Valid()
      reads this
    {
      |recentFaces| <= MaxRecentFaces
    }

    /** Mounting: the load effect reads storage once. */
    constructor(stored: StoredFaces)
      ensures Valid()
      ensures recentFaces == LoadRecentFaces(stored) && storage == stored
      ensures preview.None? && selection.None?
    {
      preview := None;
      selection := None;
      storage := stored;
      recentFaces := LoadRecentFaces(stored);
    }

    /** A drop: the first accepted file is selected at once; its preview
        arrives later through `OnFileLoaded`. */
    method OnDrop(acceptedFiles: seq<string>)
      requires Valid()
      modifies this
      ensures Valid()
      ensures selection == if |acceptedFiles| > 0 then Some(acceptedFiles[0]) else old(selection)
      ensures preview == old(preview) && recentFaces == old(recentFaces) && storage == old(storage)
    {
      if |acceptedFiles| > 0 {
        selection := Some(acceptedFiles[0]);
      }
    }

    /** The reader's `onload`: show the data URL and save it as the most
        recent face; the saved list is written to storage as well. */
    method OnFileLoaded(dataUrl: string, id: string, uploadedAt: int)
      requires Valid()
      modifies this
      ensures Valid()
      ensures preview == Some(dataUrl)
      ensures recentFaces == SaveToRecentFaces(old(recentFaces), NewFace(id, dataUrl, uploadedAt))
      ensures storage == Stored(recentFaces)
      ensures selection == old(selection)
    {
      preview := Some(dataUrl);
      var updatedFaces := SaveToRecentFaces(recentFaces, NewFace(id, dataUrl, uploadedAt));
      recentFaces := updatedFaces;
      storage := Stored(updatedFaces);
    }

    /** Picking a recent face: when fetching its data URL works, it becomes
        the selection and the preview; otherwise nothing changes. The list
        is not reordered. */
    method SelectRecentFace(face: RecentFace, fetched: bool)
      requires Valid()
      modifies this
      ensures Valid()
      ensures fetched ==> selection == Some("recent-face-" + face.id) && preview == Some(face.imageUrl)
      ensures !fetched ==> selection == old(selection) && preview == old(preview)
      ensures recentFaces == old(recentFaces) && storage == old(storage)
    {
      if fetched {
        selection := Some("recent-face-" + face.id);
        preview := Some(face.imageUrl);
      }
    }

    method ClearImage()
      requires Valid()
      modifies this
      ensures Valid()
      ensures selection.None? && preview.None?
      ensures recentFaces == old(recentFaces) && storage == old(storage)
    {
      selection := None;
      preview := None;
    }
  }
}
