/** The list of PCI devices to pass through: printed by the configuration UI, parsed by the QEMU builder. */
module PassthroughList {
  import opened Text

  /** The index of the first space, or the length. */
  function SpaceAt(item: string): (i: nat)
    ensures i <= |item| && (i < |item| ==> item[i] == ' ')
    ensures forall j :: 0 <= j < i ==> item[j] != ' '
  {
    if item == "" || item[0] == ' ' then 0 else 1 + SpaceAt(item[1..])
  }

  /** A display item counts when it holds a space; its address is what stands before the first one. */
  predicate Selected(item: string) {
    SpaceAt(item) < |item|
  }

  function Address(item: string): string {
    item[..SpaceAt(item)]
  }

  /** An item is selected exactly if it holds a space, and then it is its address, a space and the rest. */
  lemma AddressIsExact(item: string)
    ensures Selected(item) <==> ' ' in item
    ensures ' ' !in Address(item) && Address(item) <= item
    ensures Selected(item) ==> item[..|Address(item)| + 1] == Address(item) + [' ']
  {
  }

  /** The addresses of the selected items, in order. */
  function Addresses(items: seq<string>): seq<string> {
    if items == [] then []
    else
      var last := items[|items| - 1];
      Addresses(items[..|items| - 1]) + if Selected(last) then [Address(last)] else []
  }

  /** What the first `n` items contribute; only the last item of the list goes without a comma. */
  function Printed(items: seq<string>, n: nat): string
    requires n <= |items|
  {
    if n == 0 then ""
    else
      Printed(items, n - 1)
      + if !Selected(items[n - 1]) then ""
        else Address(items[n - 1]) + if n != |items| then "," else ""
  }

  /** The loop of the configuration UI. */
  method PassthroughString(items: seq<string>) returns (passthrough: string)
    ensures passthrough == Printed(items, |items|)
  {
    passthrough := "";
    var i := 0;
    while i < |items|
      invariant 0 <= i <= |items|
      invariant passthrough == Printed(items, i)
    {
      var item := items[i];
      i := i + 1;
      if |item| == 0 {
        continue;
      }
      var pos := SpaceAt(item);
      if pos == |item| {
        continue;
      }
      ghost var before := passthrough;
      passthrough := passthrough + item[..pos];
      if i != |items| {
        passthrough := passthrough + [','];
      }
      assert passthrough == before + (Address(item) + if i != |items| then "," else "");
    }
  }

  function TrimAll(pieces: seq<string>): seq<string> {
    if pieces == [] then [] else [Trim(pieces[0])] + TrimAll(pieces[1..])
  }

  /** The tokens the builder tries to pass through. */
  function Tokens(value: string): seq<string> {
    var v := Trim(value);
    if v == "" then [] else TrimAll(SplitCompressed(v, ','))
  }

  // ---------------------------------------------------------------- what the tokens are

  lemma {:induction false} TrimAllSnoc(pieces: seq<string>, last: string)
    ensures TrimAll(pieces + [last]) == TrimAll(pieces) + [Trim(last)]
  {
    if pieces != [] {
      TrimAllSnoc(pieces[1..], last);
      assert (pieces + [last])[1..] == pieces[1..] + [last];
    }
  }

  /** Empty pieces stay empty, and only they need not be trimmed. */
  lemma {:induction false} TrimAllOfNonEmpty(pieces: seq<string>)
    ensures NonEmpty(TrimAll(pieces)) == NonEmpty(TrimAll(NonEmpty(pieces)))
  {
    if pieces != [] {
      var first, rest := Trim(pieces[0]), pieces[1..];
      TrimAllOfNonEmpty(rest);
      NonEmptyConcat([first], TrimAll(rest));
      if pieces[0] != "" {
        var kept := NonEmpty(rest);
        assert NonEmpty(pieces) == [pieces[0]] + kept && ([pieces[0]] + kept)[1..] == kept;
        NonEmptyConcat([first], TrimAll(kept));
      } else {
        assert NonEmpty(pieces) == NonEmpty(rest) && NonEmpty([first]) == [];
      }
    }
  }

  lemma {:induction false} TrimLeftSnoc(s: string, c: char)
    requires IsSpace(c)
    ensures TrimLeft(s + [c]) == if TrimLeft(s) == "" then "" else TrimLeft(s) + [c]
  {
    if s == "" {
      assert s + [c] == [c] && [c][1..] == "";
    } else if IsSpace(s[0]) {
      TrimLeftSnoc(s[1..], c);
      assert (s + [c])[1..] == s[1..] + [c];
    }
  }

  /** White space at either end of a piece does not matter. */
  lemma TrimIgnoresEnds(s: string, c: char)
    requires IsSpace(c)
    ensures Trim([c] + s) == Trim(s) && Trim(s + [c]) == Trim(s)
  {
    assert ([c] + s)[1..] == s;
    TrimLeftSnoc(s, c);
    var x := TrimLeft(s);
    assert x != "" ==> (x + [c])[..|x|] == x;
  }

  /** The pieces with one more character at the very end. */
  function Extend(pieces: seq<string>, c: char): seq<string>
    requires pieces != []
  {
    pieces[..|pieces| - 1] + [pieces[|pieces| - 1] + [c]]
  }

  lemma PrependExtend(a: char, pieces: seq<string>, c: char)
    requires pieces != []
    ensures Prepend(a, ',', Extend(pieces, c)) == Extend(Prepend(a, ',', pieces), c)
  {
    if a != ',' && |pieces| == 1 {
      assert [a] + (pieces[0] + [c]) == ([a] + pieces[0]) + [c];
    }
  }

  lemma {:induction false} SplitSnoc(s: string, c: char)
    requires c != ','
    ensures Split(s + [c], ',') == Extend(Split(s, ','), c)
  {
    if s == "" {
      assert s + [c] == [c] && [c][1..] == "" && "" + [c] == [c] + "";
    } else {
      SplitSnoc(s[1..], c);
      assert (s + [c])[1..] == s[1..] + [c];
      PrependExtend(s[0], Split(s[1..], ','), c);
    }
  }

  lemma {:induction false} LeftEndIgnored(s: string)
    ensures TrimAll(Split(TrimLeft(s), ',')) == TrimAll(Split(s, ','))
  {
    if s != "" && IsSpace(s[0]) {
      LeftEndIgnored(s[1..]);
      var p := Split(s[1..], ',');
      TrimIgnoresEnds(p[0], s[0]);
      assert Split(s, ',')[1..] == p[1..];
    }
  }

  lemma LastPieceTrimmed(pieces: seq<string>, c: char)
    requires pieces != [] && IsSpace(c)
    ensures TrimAll(Extend(pieces, c)) == TrimAll(pieces)
  {
    var init, last := pieces[..|pieces| - 1], pieces[|pieces| - 1];
    TrimAllSnoc(init, last);
    TrimAllSnoc(init, last + [c]);
    TrimIgnoresEnds(last, c);
    assert pieces == init + [last];
  }

  lemma {:induction false} RightEndIgnored(s: string)
    ensures TrimAll(Split(TrimRight(s), ',')) == TrimAll(Split(s, ','))
    decreases |s|
  {
    if s != "" && IsSpace(s[|s| - 1]) {
      var c, rest := s[|s| - 1], s[..|s| - 1];
      RightEndIgnored(rest);
      SplitSnoc(rest, c);
      LastPieceTrimmed(Split(rest, ','), c);
      assert s == rest + [c];
    }
  }

  /** The devices tried are the pieces between commas, each without the white space around it, as far as they are not
      empty then; trimming the whole list first and compressing commas change nothing. */
  lemma TokensAreExact(value: string)
    ensures NonEmpty(Tokens(value)) == NonEmpty(TrimAll(Split(value, ',')))
  {
    var v := Trim(value);
    LeftEndIgnored(value);
    RightEndIgnored(TrimLeft(value));
    assert TrimAll(Split(v, ',')) == TrimAll(Split(value, ','));
    CompressionDropsEmpties(v, ',');
    TrimAllOfNonEmpty(Split(v, ','));
    TrimAllOfNonEmpty(SplitCompressed(v, ','));
    if v == "" {
      assert TrimAll([""]) == [""] && NonEmpty([""]) == [];
    }
  }

  // ---------------------------------------------------------------- the round trip

  /** The address can be told from the syntax of the list. */
  ghost predicate Plain(address: string) {
    NoSpace(address) && ',' !in address
  }

  lemma TrimAllNothing(pieces: seq<string>)
    requires forall i :: 0 <= i < |pieces| ==> NoSpace(pieces[i])
    ensures TrimAll(pieces) == pieces
  {
    if pieces != [] {
      TrimNothing(pieces[0]);
      TrimAllNothing(pieces[1..]);
    }
  }

  /** Without white space, the non-empty tokens are the non-empty pieces between commas. */
  lemma TokensArePieces(value: string)
    requires NoSpace(value)
    ensures NonEmpty(Tokens(value)) == NonEmpty(Split(value, ','))
  {
    TrimNothing(value);
    if value != "" {
      PiecesHaveNoSpace(value, ',');
      TrimAllNothing(SplitCompressed(value, ','));
      CompressionDropsEmpties(value, ',');
    }
  }

  predicate Closed(s: string) {
    s == "" || s[|s| - 1] == ','
  }

  lemma AddComma(s: string)
    ensures NonEmpty(Split(s + [','], ',')) == NonEmpty(Split(s, ','))
  {
    assert s + [','] == s + [','] + "";
    SplitAt(s, ',', "");
    NonEmptyConcat(Split(s, ','), [""]);
  }

  lemma AddAfterComma(s: string, address: string)
    requires ',' !in address
    ensures NonEmpty(Split(s + [','] + address, ',')) == NonEmpty(Split(s, ',')) + NonEmpty([address])
  {
    SplitWhole(address, ',');
    SplitAt(s, ',', address);
    NonEmptyConcat(Split(s, ','), [address]);
  }

  /** An address put after a closed list becomes its last piece. */
  lemma AddPiece(s: string, address: string)
    requires Closed(s) && ',' !in address
    ensures NonEmpty(Split(s + address, ',')) == NonEmpty(Split(s, ',')) + NonEmpty([address])
  {
    SplitWhole(address, ',');
    if s == "" {
      assert s + address == address;
      assert Split(s, ',') == [""] && NonEmpty([""]) == [];
    } else {
      var q := s[..|s| - 1];
      assert s == q + [','];
      AddAfterComma(q, address);
      AddComma(q);
    }
  }

  lemma AddCommaIf(s: string, comma: string)
    requires comma == "," || comma == ""
    ensures NonEmpty(Split(s + comma, ',')) == NonEmpty(Split(s, ','))
  {
    if comma == "," {
      AddComma(s);
    } else {
      assert s + comma == s;
    }
  }

  lemma AddedShape(s: string, address: string, comma: string)
    requires NoSpace(s) && NoSpace(address) && (comma == "," || comma == "")
    ensures NoSpace(s + (address + comma)) && (comma == "," ==> Closed(s + (address + comma)))
  {
  }

  /** One more address, with its comma unless it is the last. */
  lemma AddEntry(s: string, address: string, comma: string)
    requires Closed(s) && NoSpace(s) && Plain(address) && (comma == "," || comma == "")
    ensures var t := s + (address + comma);
      && NonEmpty(Split(t, ',')) == NonEmpty(Split(s, ',')) + NonEmpty([address])
      && NoSpace(t) && (comma == "," ==> Closed(t))
  {
    AddPiece(s, address);
    AddCommaIf(s + address, comma);
    assert s + (address + comma) == (s + address) + comma;
    AddedShape(s, address, comma);
  }

  /** What one more item adds. */
  lemma PrintedStep(items: seq<string>, n: nat)
    requires 0 < n <= |items|
    ensures !Selected(items[n - 1]) ==> Printed(items, n) == Printed(items, n - 1)
    ensures Selected(items[n - 1]) && n < |items| ==>
      Printed(items, n) == Printed(items, n - 1) + Address(items[n - 1]) + ","
    ensures Selected(items[n - 1]) && n == |items| ==> Printed(items, n) == Printed(items, n - 1) + Address(items[n - 1])
  {
    var p, a := Printed(items, n - 1), Address(items[n - 1]);
    assert p + "" == p && p + (a + ",") == p + a + "," && p + (a + "") == p + a;
  }

  lemma {:induction false} PrintedShape(items: seq<string>, n: nat)
    requires n <= |items|
    requires forall i :: 0 <= i < n && Selected(items[i]) ==> Plain(Address(items[i]))
    ensures NoSpace(Printed(items, n)) && (n < |items| ==> Closed(Printed(items, n)))
    decreases n
  {
    if n > 0 {
      PrintedShape(items, n - 1);
      var p, item := Printed(items, n - 1), items[n - 1];
      if Selected(item) {
        assert Plain(Address(item));
        AddedShape(p, Address(item), if n != |items| then "," else "");
      } else {
        assert Printed(items, n) == p;
      }
    }
  }

  lemma AddressesNext(items: seq<string>, n: nat)
    requires 0 < n <= |items|
    ensures NonEmpty(Addresses(items[..n])) ==
      NonEmpty(Addresses(items[..n - 1])) + if Selected(items[n - 1]) then NonEmpty([Address(items[n - 1])]) else []
  {
    assert items[..n][..n - 1] == items[..n - 1];
    if Selected(items[n - 1]) {
      NonEmptyConcat(Addresses(items[..n - 1]), [Address(items[n - 1])]);
    } else {
      assert Addresses(items[..n]) == Addresses(items[..n - 1]);
    }
  }

  lemma {:induction false} PrintedPieces(items: seq<string>, n: nat)
    requires n <= |items|
    requires forall i :: 0 <= i < n && Selected(items[i]) ==> Plain(Address(items[i]))
    ensures NonEmpty(Split(Printed(items, n), ',')) == NonEmpty(Addresses(items[..n]))
    decreases n
  {
    if n > 0 {
      var p, item := Printed(items, n - 1), items[n - 1];
      PrintedPieces(items, n - 1);
      PrintedShape(items, n - 1);
      AddressesNext(items, n);
      if Selected(item) {
        AddEntry(p, Address(item), if n != |items| then "," else "");
      } else {
        assert Printed(items, n) == p;
      }
    }
  }

  /** Parsing what was printed gives back, in order, the non-empty addresses of the selected items; a comma left
      behind by a skipped last item changes nothing. */
  lemma {:induction false} RoundTrip(items: seq<string>)
    requires forall i :: 0 <= i < |items| && Selected(items[i]) ==> Plain(Address(items[i]))
    ensures NonEmpty(Tokens(Printed(items, |items|))) == NonEmpty(Addresses(items))
  {
    PrintedShape(items, |items|);
    PrintedPieces(items, |items|);
    assert items[..|items|] == items;
    TokensArePieces(Printed(items, |items|));
  }

  /** The list with a comma between each two. */
  function Joined(list: seq<string>): string {
    if list == [] then ""
    else if |list| == 1 then list[0]
    else Joined(list[..|list| - 1]) + "," + list[|list| - 1]
  }

  function Closing(list: seq<string>): string {
    if list == [] then "" else ","
  }

  lemma JoinedSnoc(list: seq<string>, last: string)
    ensures Joined(list + [last]) == Joined(list) + Closing(list) + last
  {
    assert (list + [last])[..|list|] == list;
  }

  lemma AddressesSnoc(items: seq<string>, n: nat)
    requires n < |items|
    ensures Selected(items[n]) ==> Addresses(items[..n + 1]) == Addresses(items[..n]) + [Address(items[n])]
    ensures !Selected(items[n]) ==> Addresses(items[..n + 1]) == Addresses(items[..n])
  {
    assert items[..n + 1][..n] == items[..n];
    assert Addresses(items[..n]) + [] == Addresses(items[..n]);
  }

  lemma JoinedGrows(list: seq<string>, printed: string, address: string)
    requires printed == Joined(list) + Closing(list)
    ensures printed + address + "," == Joined(list + [address]) + Closing(list + [address])
  {
    JoinedSnoc(list, address);
  }

  lemma {:induction false} PrintedSoFar(items: seq<string>, n: nat)
    requires n < |items|
    ensures Printed(items, n) == Joined(Addresses(items[..n])) + Closing(Addresses(items[..n]))
    decreases n
  {
    if n > 0 {
      PrintedSoFar(items, n - 1);
      AddressesSnoc(items, n - 1);
      PrintedStep(items, n);
      if Selected(items[n - 1]) {
        JoinedGrows(Addresses(items[..n - 1]), Printed(items, n - 1), Address(items[n - 1]));
      }
    }
  }

  /** The string printed is the addresses with a comma between each two, and one more at the end exactly if some item is
      selected and the last is not. */
  lemma PrintedIsJoined(items: seq<string>)
    ensures Printed(items, |items|) ==
      Joined(Addresses(items)) +
      if items != [] && !Selected(items[|items| - 1]) then Closing(Addresses(items)) else ""
  {
    if items != [] {
      var n := |items| - 1;
      var before := Addresses(items[..n]);
      PrintedSoFar(items, n);
      AddressesSnoc(items, n);
      PrintedStep(items, n + 1);
      assert items[..n + 1] == items;
      if Selected(items[n]) {
        JoinedSnoc(before, Address(items[n]));
        assert Joined(Addresses(items)) + "" == Joined(Addresses(items));
      }
    }
  }
}
