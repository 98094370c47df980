/** The path cleanup at the end of the path-discovery script
    (api/utils/path.py): the part of a Graph `parentReference.path` after
    "root:", without a leading slash, joined with the file name. */
module PathCleanup {
  import opened Common

  /** `s.split(sep)[-1]`, scanning left to right as Python does: the text
      after the last separator cut, with `piece` the text read since the
      previous cut. */
  function LastPieceFrom(s: string, sep: string, piece: string): string
    requires sep != []
    decreases |s|
  {
    if s == [] then piece
    else if IsPrefix(sep, s) then LastPieceFrom(s[|sep|..], sep, [])
    else LastPieceFrom(s[1..], sep, piece + [s[0]])
  }

  function LastPiece(s: string, sep: string): string
    requires sep != []
  {
    LastPieceFrom(s, sep, [])
  }

  /** `r` is the text after a separator cut of `t`: a suffix of `t`,
      preceded by the separator unless it is the whole of `t`. */
  predicate PieceOf(r: string, t: string, sep: string) {
    && |r| <= |t|
    && r == t[|t| - |r|..]
    && (|r| < |t| ==> IsSuffixOf(sep, t[..|t| - |r|]))
  }

  /** The scan's answer is the text after some separator cut of the input. */
  lemma {:induction false} LastPieceFromSpec(s: string, sep: string, piece: string)
    requires sep != []
    ensures PieceOf(LastPieceFrom(s, sep, piece), piece + s, sep)
    decreases |s|
  {
    if s == [] {
      assert piece + s == piece;
    } else if IsPrefix(sep, s) {
      var rest := s[|sep|..];
      var r := LastPieceFrom(rest, sep, []);
      LastPieceFromSpec(rest, sep, []);
      assert [] + rest == rest;
      ScanStep(s, sep, piece);
      CutSpec(s, sep, piece, r);
    } else {
      var next := piece + [s[0]];
      LastPieceFromSpec(s[1..], sep, next);
      ScanStep(s, sep, piece);
      assert next + s[1..] == piece + s;
    }
  }

  /** One step of the scan: a cut at a separator, or one more character read. */
  lemma ScanStep(s: string, sep: string, piece: string)
    requires sep != [] && s != []
    ensures IsPrefix(sep, s) ==> LastPieceFrom(s, sep, piece) == LastPieceFrom(s[|sep|..], sep, [])
    ensures !IsPrefix(sep, s) ==> LastPieceFrom(s, sep, piece) == LastPieceFrom(s[1..], sep, piece + [s[0]])
  {
  }

  /** A piece of the text after a leading separator is a piece of the text
      with anything in front. */
  lemma CutSpec(s: string, sep: string, piece: string, r: string)
    requires sep != [] && IsPrefix(sep, s)
    requires PieceOf(r, s[|sep|..], sep)
    ensures PieceOf(r, piece + s, sep)
  {
    var front := piece + sep;
    SplitAtSeparator(s, sep, piece);
    CutAtSeparator(front, s[|sep|..], r, sep);
  }

  lemma SplitAtSeparator(s: string, sep: string, piece: string)
    requires IsPrefix(sep, s)
    ensures piece + s == (piece + sep) + s[|sep|..]
    ensures IsSuffixOf(sep, piece + sep)
  {
    assert s == s[..|sep|] + s[|sep|..];
    assert (piece + sep)[|piece + sep| - |sep|..] == sep;
  }

  /** The step of the scan that cuts at a separator: a piece of the text
      after the cut is a piece of the whole text. */
  lemma CutAtSeparator(front: string, rest: string, r: string, sep: string)
    requires IsSuffixOf(sep, front)
    requires PieceOf(r, rest, sep)
    ensures PieceOf(r, front + rest, sep)
  {
    var t := front + rest;
    assert t[|t| - |r|..] == rest[|rest| - |r|..];
    var cut := rest[..|rest| - |r|];
    assert t[..|t| - |r|] == front + cut;
    if |r| < |rest| {
      SuffixExtends(sep, cut, front);
    } else {
      assert front + cut == front;
    }
  }

  predicate IsSuffixOf(p: string, s: string) {
    |p| <= |s| && s[|s| - |p|..] == p
  }

  lemma SuffixExtends(p: string, s: string, front: string)
    requires IsSuffixOf(p, s)
    ensures IsSuffixOf(p, front + s)
  {
    assert (front + s)[|front + s| - |p|..] == s[|s| - |p|..];
  }

  /** `split("root:")[-1]`, then at most one leading "/" removed. */
  function CleanPath(fullPath: string): (r: string)
    ensures var piece := LastPiece(fullPath, "root:");
      && (r == piece || piece == "/" + r)
      && (IsPrefix("/", piece) <==> piece == "/" + r)
  {
    var piece := LastPiece(fullPath, "root:");
    if IsPrefix("/", piece) then piece[1..] else piece
  }

  /** The final path: the cleaned path, a slash and the file name. */
  function FinalPath(fullPath: string, name: string): (r: string)
    ensures IsSuffixOf("/" + name, r)
    ensures r == CleanPath(fullPath) + "/" + name
  {
    CleanPath(fullPath) + "/" + name
  }

  /** The script's outcome: no path when the search found nothing, otherwise
      the final path built from the item's `parentReference.path` and name. */
  function DiscoverPath(results: map<string, Json>, fullPath: string, name: string): (r: Option<string>)
    ensures !JsonTruthy(Get(results, "value")) <==> r.None?
    ensures r.Some? ==> r.value == FinalPath(fullPath, name) && IsSuffixOf("/" + name, r.value)
  {
    if !JsonTruthy(Get(results, "value")) then None else Some(FinalPath(fullPath, name))
  }

  /** A path without "root:" is kept whole (less one leading slash). */
  lemma NoRootKeepsPath(fullPath: string)
    requires !Contains(fullPath, "root:")
    ensures LastPiece(fullPath, "root:") == fullPath
  {
    NoSepPieceIsInput(fullPath, "root:", []);
    assert [] + fullPath == fullPath;
  }

  lemma {:induction false} NoSepPieceIsInput(s: string, sep: string, piece: string)
    requires sep != [] && !Contains(s, sep)
    ensures LastPieceFrom(s, sep, piece) == piece + s
    decreases |s|
  {
    if s != [] {
      assert !IsPrefix(sep, s);
      NoSepPieceIsInput(s[1..], sep, piece + [s[0]]);
      assert (piece + [s[0]]) + s[1..] == piece + s;
    } else {
      assert piece + s == piece;
    }
  }

  /** `split(sep)[-1]` is the text after the last separator: a suffix of
      the input preceded by the separator (or the whole input), holding no
      separator itself. */
  lemma LastPieceIsAfterLastSeparator(s: string, sep: string)
    requires sep != []
    ensures PieceOf(LastPiece(s, sep), s, sep)
    ensures !Contains(LastPiece(s, sep), sep)
  {
    LastPieceFromSpec(s, sep, []);
    assert [] + s == s;
    LastPieceFromNoSep(s, sep, []);
  }

  /** No separator starts at a position of `piece` (read on into `s`): each
      such position was checked while scanning. */
  predicate NoSepInside(piece: string, s: string, sep: string) {
    forall i :: 0 <= i < |piece| ==> !IsPrefix(sep, piece[i..] + s)
  }

  lemma {:induction false} LastPieceFromNoSep(s: string, sep: string, piece: string)
    requires sep != [] && NoSepInside(piece, s, sep)
    ensures !Contains(LastPieceFrom(s, sep, piece), sep)
    decreases |s|
  {
    if s == [] {
      NoSepInsideEnd(piece, sep);
    } else if IsPrefix(sep, s) {
      LastPieceFromNoSep(s[|sep|..], sep, []);
    } else {
      var next := piece + [s[0]];
      forall i | 0 <= i < |next| ensures !IsPrefix(sep, next[i..] + s[1..]) {
        if i < |piece| {
          assert next[i..] + s[1..] == piece[i..] + s;
        } else {
          assert next[i..] + s[1..] == s;
        }
      }
      LastPieceFromNoSep(s[1..], sep, next);
    }
  }

  lemma {:induction false} NoSepInsideEnd(t: string, sep: string)
    requires sep != [] && NoSepInside(t, [], sep)
    ensures !Contains(t, sep)
    decreases |t|
  {
    if t != [] {
      assert t[0..] + [] == t;
      forall i | 0 <= i < |t[1..]| ensures !IsPrefix(sep, t[1..][i..] + []) {
        assert t[1..][i..] + [] == t[i + 1..] + [];
      }
      NoSepInsideEnd(t[1..], sep);
    }
  }
}
