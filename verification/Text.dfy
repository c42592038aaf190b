/** Splitting, trimming and joining of strings, as the Boost string algorithms do them. */
module Text {

  /** A list of pieces with one more character in front. */
  function Prepend(c: char, sep: char, pieces: seq<string>): seq<string>
    requires pieces != []
  {
    if c == sep then [""] + pieces else [[c] + pieces[0]] + pieces[1..]
  }

  /** The pieces between separators; n separators make n + 1 pieces. */
  function Split(s: string, sep: char): (r: seq<string>)
    ensures |r| >= 1
    ensures forall p :: p in r ==> sep !in p
  {
    if s == "" then [""] else Prepend(s[0], sep, Split(s[1..], sep))
  }

  /** Drops leading separators. */
  function Skip(s: string, sep: char): (r: string)
    ensures |r| <= |s|
  {
    if s != "" && s[0] == sep then Skip(s[1..], sep) else s
  }

  /** The pieces between runs of separators (`token_compress_on`); a leading or trailing run still makes an empty
      piece. */
  function SplitCompressed(s: string, sep: char): (r: seq<string>)
    ensures |r| >= 1
    decreases |s|
  {
    if s == "" then [""]
    else Prepend(s[0], sep, SplitCompressed(if s[0] == sep then Skip(s[1..], sep) else s[1..], sep))
  }

  function NonEmpty(pieces: seq<string>): seq<string> {
    if pieces == [] then []
    else (if pieces[0] == "" then [] else [pieces[0]]) + NonEmpty(pieces[1..])
  }

  lemma Assoc(a: seq<string>, b: seq<string>, c: seq<string>)
    ensures a + (b + c) == (a + b) + c
  {
  }

  lemma {:induction false} NonEmptyConcat(a: seq<string>, b: seq<string>)
    ensures NonEmpty(a + b) == NonEmpty(a) + NonEmpty(b)
  {
    if a == [] {
      assert a + b == b;
    } else {
      NonEmptyConcat(a[1..], b);
      assert (a + b)[0] == a[0] && (a + b)[1..] == a[1..] + b;
      var head := if a[0] == "" then [] else [a[0]];
      Assoc(head, NonEmpty(a[1..]), NonEmpty(b));
      assert NonEmpty(a + b) == head + NonEmpty((a + b)[1..]);
    }
  }

  lemma {:induction false} SkipKeepsPieces(s: string, sep: char)
    ensures NonEmpty(Split(Skip(s, sep), sep)) == NonEmpty(Split(s, sep))
  {
    if s != "" && s[0] == sep {
      SkipKeepsPieces(s[1..], sep);
      NonEmptyConcat([""], Split(s[1..], sep));
    }
  }

  /** Compression only drops empty pieces; the first piece is the same either way. */
  lemma {:induction false} CompressionDropsEmpties(s: string, sep: char)
    ensures NonEmpty(SplitCompressed(s, sep)) == NonEmpty(Split(s, sep))
    ensures SplitCompressed(s, sep)[0] == Split(s, sep)[0]
    ensures NonEmpty(SplitCompressed(s, sep)[1..]) == NonEmpty(Split(s, sep)[1..])
    decreases |s|
  {
    if s != "" {
      var c, p := SplitCompressed(s, sep), Split(s, sep);
      if s[0] == sep {
        var rest := Skip(s[1..], sep);
        CompressionDropsEmpties(rest, sep);
        SkipKeepsPieces(s[1..], sep);
        assert c[1..] == SplitCompressed(rest, sep) && p[1..] == Split(s[1..], sep);
      } else {
        CompressionDropsEmpties(s[1..], sep);
        assert c[1..] == SplitCompressed(s[1..], sep)[1..] && p[1..] == Split(s[1..], sep)[1..];
      }
    }
  }

  lemma Glue(c: char, sep: char, l: seq<string>, r: seq<string>)
    requires l != []
    ensures Prepend(c, sep, l + r) == Prepend(c, sep, l) + r
  {
    assert (l + r)[1..] == l[1..] + r;
  }

  /** A separator between two strings splits there. */
  lemma {:induction false} SplitAt(a: string, sep: char, b: string)
    ensures Split(a + [sep] + b, sep) == Split(a, sep) + Split(b, sep)
  {
    var s := a + [sep] + b;
    if a == "" {
      assert s[1..] == b;
    } else {
      SplitAt(a[1..], sep, b);
      assert s[1..] == a[1..] + [sep] + b;
      Glue(s[0], sep, Split(a[1..], sep), Split(b, sep));
    }
  }

  lemma {:induction false} SplitWhole(s: string, sep: char)
    requires sep !in s
    ensures Split(s, sep) == [s]
  {
    if s != "" {
      SplitWhole(s[1..], sep);
      assert [s[0]] + s[1..] == s;
    }
  }

  // ---------------------------------------------------------------- trimming

  ghost predicate NoSpace(s: string) {
    forall i :: 0 <= i < |s| ==> !IsSpace(s[i])
  }

  predicate IsSpace(c: char) {
    c == ' ' || '\t' <= c <= '\r'
  }

  function TrimLeft(s: string): string {
    if s != "" && IsSpace(s[0]) then TrimLeft(s[1..]) else s
  }

  function TrimRight(s: string): string {
    if s != "" && IsSpace(s[|s| - 1]) then TrimRight(s[..|s| - 1]) else s
  }

  function Trim(s: string): string {
    TrimRight(TrimLeft(s))
  }

  lemma {:induction false} TrimLeftIsExact(s: string) returns (before: string)
    ensures s == before + TrimLeft(s) && (forall c :: c in before ==> IsSpace(c))
    ensures TrimLeft(s) != "" ==> !IsSpace(TrimLeft(s)[0])
  {
    before := "";
    if s != "" && IsSpace(s[0]) {
      before := TrimLeftIsExact(s[1..]);
      before := [s[0]] + before;
    }
  }

  lemma {:induction false} TrimRightIsExact(s: string) returns (after: string)
    ensures s == TrimRight(s) + after && (forall c :: c in after ==> IsSpace(c))
    ensures TrimRight(s) != "" ==> !IsSpace(TrimRight(s)[|TrimRight(s)| - 1])
    decreases |s|
  {
    after := "";
    if s != "" && IsSpace(s[|s| - 1]) {
      after := TrimRightIsExact(s[..|s| - 1]);
      after := after + [s[|s| - 1]];
    }
  }

  /** Trimming takes white space off both ends, all of it and nothing else. */
  lemma TrimIsExact(s: string) returns (before: string, after: string)
    ensures s == before + Trim(s) + after && (forall c :: c in before + after ==> IsSpace(c))
    ensures Trim(s) != "" ==> !IsSpace(Trim(s)[0]) && !IsSpace(Trim(s)[|Trim(s)| - 1])
  {
    before := TrimLeftIsExact(s);
    after := TrimRightIsExact(TrimLeft(s));
  }

  lemma TrimNothing(s: string)
    requires NoSpace(s)
    ensures Trim(s) == s
  {
  }

  lemma {:induction false} PiecesHaveNoSpace(s: string, sep: char)
    requires NoSpace(s)
    ensures forall i :: 0 <= i < |SplitCompressed(s, sep)| ==> NoSpace(SplitCompressed(s, sep)[i])
    decreases |s|
  {
    if s != "" {
      var rest := if s[0] == sep then Skip(s[1..], sep) else s[1..];
      SkipHasNoSpace(s[1..], sep);
      PiecesHaveNoSpace(rest, sep);
    }
  }

  lemma {:induction false} SkipHasNoSpace(s: string, sep: char)
    requires NoSpace(s)
    ensures NoSpace(Skip(s, sep))
  {
    if s != "" && s[0] == sep {
      SkipHasNoSpace(s[1..], sep);
    }
  }
}
