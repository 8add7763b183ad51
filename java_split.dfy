/**
 * Java's `String.split(",")` (limit 0), as used to read the `driverClass`
 * attribute of a meta model descriptor.
 *
 * Java splits on every comma, keeps segments in order without trimming them,
 * keeps leading and interior empty segments, and drops the trailing empty
 * ones. A string containing no comma is returned whole, as a one-element
 * array, even when it is empty.
 */
module JavaSplit {

  const Comma: char := ','

  /** Every substring between commas, in order, including all empty ones. */
  function Segments(s: string): (r: seq<string>)
    ensures |r| >= 1
  {
    if s == [] then [[]]
    else
      var rest := Segments(s[1..]);
      if s[0] == Comma then [[]] + rest
      else [[s[0]] + rest[0]] + rest[1..]
  }

  /** The segments written back out with a comma between each two. */
  function Join(parts: seq<string>): string
  {
    if |parts| == 0 then []
    else if |parts| == 1 then parts[0]
    else parts[0] + [Comma] + Join(parts[1..])
  }

  /** The string without the run of commas at its end. */
  function TrimTrailingCommas(s: string): (r: string)
    ensures r <= s
    ensures r == [] || r[|r| - 1] != Comma
    ensures forall i :: |r| <= i < |s| ==> s[i] == Comma
  {
    if s != [] && s[|s| - 1] == Comma then TrimTrailingCommas(s[..|s| - 1]) else s
  }

  /** The segments without the run of empty segments at their end. */
  function DropTrailingEmpty(parts: seq<string>): (r: seq<string>)
    ensures r <= parts
    ensures r == [] || r[|r| - 1] != []
    ensures forall i :: |r| <= i < |parts| ==> parts[i] == []
  {
    if parts != [] && parts[|parts| - 1] == [] then DropTrailingEmpty(parts[..|parts| - 1])
    else parts
  }

  /**
   * `s.split(",")`: the segments of `s` with trailing empty ones removed, or
   * `[s]` itself when `s` holds no comma at all.
   */
  function Split(s: string): (r: seq<string>)
    ensures r <= Segments(s)
    ensures forall i :: |r| <= i < |Segments(s)| ==> Segments(s)[i] == []
    ensures Comma !in s ==> r == [s]
    ensures Comma in s ==> r == [] || r[|r| - 1] != []
  {
    if Comma !in s then
      SegmentsWithoutComma(s);
      [s]
    else
      DropTrailingEmpty(Segments(s))
  }

  /** A string with no comma is its own only segment. */
  lemma {:induction false} SegmentsWithoutComma(s: string)
    requires Comma !in s
    ensures Segments(s) == [s]
  {
    if s != [] {
      SegmentsWithoutComma(s[1..]);
      assert [s[0]] + s[1..] == s;
    }
  }

  /** No segment contains a comma. */
  lemma {:induction false} SegmentsAreCommaFree(s: string)
    ensures forall i :: 0 <= i < |Segments(s)| ==> Comma !in Segments(s)[i]
  {
    if s != [] {
      SegmentsAreCommaFree(s[1..]);
    }
  }

  /** Joining the segments gives back the string: no character is lost or trimmed. */
  lemma {:induction false} JoinSegments(s: string)
    ensures Join(Segments(s)) == s
  {
    if s != [] {
      var rest := Segments(s[1..]);
      JoinSegments(s[1..]);
      assert s == [s[0]] + s[1..];
      if s[0] != Comma && |rest| >= 2 {
        assert Join(rest) == rest[0] + [Comma] + Join(rest[1..]);
        assert ([s[0]] + rest[0]) + [Comma] + Join(rest[1..]) == [s[0]] + Join(rest);
      }
    }
  }

  /** A comma-free first part followed by a comma starts a new segment. */
  lemma {:induction false} SegmentsAfterComma(p: string, t: string)
    requires Comma !in p
    ensures Segments(p + [Comma] + t) == [p] + Segments(t)
  {
    var s := p + [Comma] + t;
    if p == [] {
      assert s[1..] == t;
    } else {
      assert s[1..] == p[1..] + [Comma] + t;
      SegmentsAfterComma(p[1..], t);
      assert [p[0]] + p[1..] == p;
    }
  }

  /**
   * Segments are unique: any non-empty list of comma-free parts is the
   * segment list of its own join.
   */
  lemma {:induction false} SegmentsOfJoin(parts: seq<string>)
    requires |parts| >= 1
    requires forall i :: 0 <= i < |parts| ==> Comma !in parts[i]
    ensures Segments(Join(parts)) == parts
  {
    if |parts| == 1 {
      SegmentsWithoutComma(parts[0]);
    } else {
      SegmentsOfJoin(parts[1..]);
      SegmentsAfterComma(parts[0], Join(parts[1..]));
      assert [parts[0]] + parts[1..] == parts;
    }
  }

  /** A comma added at the end adds one empty segment at the end. */
  lemma {:induction false} SegmentsOfTrailingComma(t: string)
    ensures Segments(t + [Comma]) == Segments(t) + [[]]
  {
    var s := t + [Comma];
    if t != [] {
      assert s[1..] == t[1..] + [Comma];
      SegmentsOfTrailingComma(t[1..]);
    }
  }

  /** A non-empty string that does not end in a comma has a non-empty last segment. */
  lemma {:induction false} LastSegmentNonEmpty(s: string)
    requires s != [] && s[|s| - 1] != Comma
    ensures Segments(s)[|Segments(s)| - 1] != []
  {
    if |s| > 1 {
      LastSegmentNonEmpty(s[1..]);
    }
  }

  /** Dropping the trailing empty segments and joining strips exactly the trailing commas. */
  lemma {:induction false} JoinWithoutTrailingEmpty(s: string)
    ensures Join(DropTrailingEmpty(Segments(s))) == TrimTrailingCommas(s)
    decreases |s|
  {
    if s == [] {
    } else if s[|s| - 1] == Comma {
      var t := s[..|s| - 1];
      assert s == t + [Comma];
      SegmentsOfTrailingComma(t);
      assert (Segments(t) + [[]])[..|Segments(t)|] == Segments(t);
      JoinWithoutTrailingEmpty(t);
    } else {
      LastSegmentNonEmpty(s);
      JoinSegments(s);
    }
  }

  /**
   * Round trip: joining the result of `split(",")` with commas gives back the
   * input minus its trailing commas.
   */
  lemma {:induction false} JoinSplit(s: string)
    ensures Join(Split(s)) == TrimTrailingCommas(s)
  {
    if Comma in s {
      JoinWithoutTrailingEmpty(s);
    } else if s != [] {
      assert s[|s| - 1] in s;
    }
  }

  /** No element of the result contains a comma. */
  lemma SplitIsCommaFree(s: string)
    ensures forall i :: 0 <= i < |Split(s)| ==> Comma !in Split(s)[i]
  {
    SegmentsAreCommaFree(s);
  }

  /** Interior empty segments are kept, and no segment is trimmed. */
  lemma SplitKeepsInteriorSegments()
    ensures Split("a,,b") == ["a", "", "b"]
    ensures Split(" a , b") == [" a ", " b"]
  {
    assert Join(["a", "", "b"]) == "a,,b";
    SegmentsOfJoin(["a", "", "b"]);
    assert Join([" a ", " b"]) == " a , b";
    SegmentsOfJoin([" a ", " b"]);
  }

  /** Leading empty segments are kept. */
  lemma SplitKeepsLeadingEmpty()
    ensures Split(",a") == ["", "a"]
  {
    assert Join(["", "a"]) == ",a";
    SegmentsOfJoin(["", "a"]);
  }

  /** Trailing empty segments are dropped. */
  lemma SplitDropsTrailingEmpty()
    ensures Split("a,b,") == ["a", "b"]
    ensures Split(",") == []
  {
    assert Join(["a", "b", ""]) == "a,b,";
    SegmentsOfJoin(["a", "b", ""]);
    assert Join(["", ""]) == ",";
    SegmentsOfJoin(["", ""]);
  }
}
