/** What flushing the Android configuration promises: it overrides a map, keeps everything else in place, and obeys
    the algebra of repeated flushes. */
module AafLaws {
  import opened Options
  import opened Text
  import opened Aaf

  ghost predicate GoodKey(key: string) {
    key != "" && ':' !in key && '\n' !in key
  }

  /** `keys` walks the map once, and its keys can be told from the syntax of a line. */
  ghost predicate Walks(keys: seq<string>, data: Pending) {
    && NoDuplicates(keys)
    && (forall k :: k in data <==> k in keys)
    && (forall k :: k in keys ==> GoodKey(k))
  }

  ghost predicate NewlineFree(data: Pending) {
    forall k :: k in data ==> '\n' !in data[k]
  }

  /** The pending values of the program: one for each of its three keys. */
  ghost predicate OfProgram(data: Pending) {
    forall k :: k in data <==> k in KEYS
  }

  lemma ProgramKeysWalk(data: Pending)
    requires OfProgram(data)
    ensures Walks(KEYS, data)
  {
    KeysDiffer();
  }

  lemma {:induction false} KeyOfAssign(key: string, value: string)
    requires ':' !in key
    ensures Key(Assign(key, value)) == key
  {
    if key != "" {
      KeyOfAssign(key[1..], value);
      assert Assign(key, value)[1..] == Assign(key[1..], value);
      assert [key[0]] + key[1..] == key;
    }
  }

  /** Writing a line out does not change its key. */
  lemma WrittenKey(line: string, data: Pending)
    requires forall k :: k in data ==> GoodKey(k)
    ensures Key(Written(line, data)) == Key(line)
  {
    if IsPending(data, Key(line)) {
      KeyOfAssign(Key(line), data[Key(line)]);
    }
  }

  // ---------------------------------------------------------------- where each line goes

  ghost predicate FirstOfKey(lines: seq<string>, i: nat)
    requires i < |lines|
  {
    forall j :: 0 <= j < i ==> Key(lines[j]) != Key(lines[i])
  }

  /** Every keyed line keeps its place; only the first line of a key with a pending value is rewritten. */
  lemma {:induction false} MergedAt(lines: seq<string>, data: Pending, i: nat)
    requires i < |lines|
    ensures |Merged(lines, data)| == |lines|
    ensures Merged(lines, data)[i] ==
      if IsPending(data, Key(lines[i])) && FirstOfKey(lines, i) then Assign(Key(lines[i]), data[Key(lines[i])])
      else lines[i]
  {
    var rest := lines[1..];
    if i > 0 {
      MergedAt(rest, After(lines[0], data), i - 1);
      assert forall j :: 0 <= j < |rest| ==> rest[j] == lines[j + 1];
      assert FirstOfKey(lines, i) ==> Key(lines[0]) != Key(lines[i]);
      assert Key(lines[0]) != Key(lines[i]) && FirstOfKey(rest, i - 1) ==> FirstOfKey(lines, i) by {
        if Key(lines[0]) != Key(lines[i]) && FirstOfKey(rest, i - 1) {
          forall j | 0 <= j < i
            ensures Key(lines[j]) != Key(lines[i])
          {
            if j > 0 {
              assert rest[j - 1] == lines[j];
            }
          }
        }
      }
      assert FirstOfKey(lines, i) ==> FirstOfKey(rest, i - 1);
    } else {
      MergedLength(rest, After(lines[0], data));
    }
  }

  lemma {:induction false} MergedLength(lines: seq<string>, data: Pending)
    ensures |Merged(lines, data)| == |lines|
  {
    if lines != [] {
      MergedLength(lines[1..], After(lines[0], data));
    }
  }

  // ---------------------------------------------------------------- lookups

  lemma {:induction false} LookupConcat(a: seq<string>, b: seq<string>, key: string)
    ensures Lookup(a + b, key) == if Lookup(a, key).Some? then Lookup(a, key) else Lookup(b, key)
  {
    if a == [] {
      assert a + b == b;
    } else {
      LookupConcat(a[1..], b, key);
      assert (a + b)[1..] == a[1..] + b;
    }
  }

  lemma {:induction false} LookupMerged(lines: seq<string>, data: Pending, key: string)
    requires forall k :: k in data ==> GoodKey(k)
    ensures Lookup(Merged(lines, data), key) ==
      if IsPending(data, key) && Lookup(lines, key).Some? then Some(Assign(key, data[key])) else Lookup(lines, key)
  {
    if lines != [] {
      WrittenKey(lines[0], data);
      LookupMerged(lines[1..], After(lines[0], data), key);
      assert Merged(lines, data)[1..] == Merged(lines[1..], After(lines[0], data));
    }
  }

  /** What stays pending is what the file does not mention. */
  lemma {:induction false} RemainingIs(lines: seq<string>, data: Pending, key: string)
    ensures key in Remaining(lines, data) <==> key in data
    ensures IsPending(Remaining(lines, data), key) <==> IsPending(data, key) && Lookup(lines, key).None?
    ensures IsPending(Remaining(lines, data), key) ==> Remaining(lines, data)[key] == data[key]
  {
    if lines != [] {
      RemainingIs(lines[1..], After(lines[0], data), key);
    }
  }

  lemma {:induction false} LookupAppended(keys: seq<string>, data: Pending, key: string)
    requires forall k :: k in keys ==> GoodKey(k)
    ensures Lookup(Appended(keys, data), key) ==
      if key in keys && IsPending(data, key) then Some(Assign(key, data[key])) else None
  {
    if keys != [] {
      assert keys[0] in keys;
      LookupAppended(keys[1..], data, key);
      if IsPending(data, keys[0]) {
        KeyOfAssign(keys[0], data[keys[0]]);
        LookupConcat([Assign(keys[0], data[keys[0]])], Appended(keys[1..], data), key);
      } else {
        assert Appended(keys, data) == Appended(keys[1..], data);
      }
    }
  }

  /** A flush overrides: the first line of a key with a pending value assigns that value, and every other key reads
      as before. */
  lemma FlushOverrides(lines: seq<string>, keys: seq<string>, data: Pending, key: string)
    requires Walks(keys, data)
    ensures Lookup(Flushed(lines, keys, data), key) ==
      if IsPending(data, key) then Some(Assign(key, data[key])) else Lookup(lines, key)
  {
    var rest := Remaining(lines, data);
    LookupConcat(Merged(lines, data), Appended(keys, rest), key);
    LookupMerged(lines, data, key);
    RemainingIs(lines, data, key);
    LookupAppended(keys, rest, key);
  }

  // ---------------------------------------------------------------- from lines to text

  /** A line that survives being written to a file and read back. */
  ghost predicate Sound(line: string) {
    Key(line) != "" && '\n' !in line
  }

  ghost predicate AllSound(lines: seq<string>) {
    forall i :: 0 <= i < |lines| ==> Sound(lines[i])
  }

  lemma {:induction false} KeyedSound(lines: seq<string>)
    requires forall i :: 0 <= i < |lines| ==> '\n' !in lines[i]
    ensures AllSound(Keyed(lines))
  {
    if lines != [] {
      KeyedSound(lines[1..]);
    }
  }

  lemma LinesOfSound(text: string)
    ensures AllSound(LinesOf(text))
  {
    assert forall i :: 0 <= i < |Split(text, '\n')| ==> Split(text, '\n')[i] in Split(text, '\n');
    KeyedSound(Split(text, '\n'));
  }

  lemma {:induction false} KeyedAll(lines: seq<string>)
    requires AllSound(lines)
    ensures Keyed(lines + [""]) == lines
  {
    if lines == [] {
      assert Keyed([""]) == [];
    } else {
      KeyedAll(lines[1..]);
      assert (lines + [""])[1..] == lines[1..] + [""];
      assert [lines[0]] + lines[1..] == lines;
    }
  }

  lemma {:induction false} SplitRender(lines: seq<string>)
    requires AllSound(lines)
    ensures Split(Render(lines), '\n') == lines + [""]
  {
    if lines != [] {
      SplitRender(lines[1..]);
      SplitWhole(lines[0], '\n');
      SplitAt(lines[0], '\n', Render(lines[1..]));
      assert [lines[0]] + (lines[1..] + [""]) == lines + [""];
    }
  }

  /** Reading back what was written. */
  lemma ReadBack(lines: seq<string>)
    requires AllSound(lines)
    ensures LinesOf(Render(lines)) == lines
  {
    SplitRender(lines);
    KeyedAll(lines);
  }

  lemma AssignSound(key: string, value: string)
    requires GoodKey(key) && '\n' !in value
    ensures Sound(Assign(key, value))
  {
    KeyOfAssign(key, value);
  }

  lemma {:induction false} MergedSound(lines: seq<string>, data: Pending)
    requires AllSound(lines) && NewlineFree(data) && forall k :: k in data ==> GoodKey(k)
    ensures AllSound(Merged(lines, data))
  {
    if lines != [] {
      if IsPending(data, Key(lines[0])) {
        AssignSound(Key(lines[0]), data[Key(lines[0])]);
      }
      MergedSound(lines[1..], After(lines[0], data));
    }
  }

  lemma {:induction false} RemainingGood(lines: seq<string>, data: Pending)
    requires NewlineFree(data)
    ensures NewlineFree(Remaining(lines, data))
  {
    if lines != [] {
      RemainingGood(lines[1..], After(lines[0], data));
    }
  }

  lemma {:induction false} AppendedSound(keys: seq<string>, data: Pending)
    requires NewlineFree(data) && forall k :: k in keys ==> GoodKey(k)
    ensures AllSound(Appended(keys, data))
  {
    if keys != [] {
      if IsPending(data, keys[0]) {
        AssignSound(keys[0], data[keys[0]]);
      }
      AppendedSound(keys[1..], data);
    }
  }

  lemma FlushedSound(text: string, keys: seq<string>, data: Pending)
    requires Walks(keys, data) && NewlineFree(data)
    ensures AllSound(Flushed(LinesOf(text), keys, data))
    ensures LinesOf(FlushText(text, keys, data)) == Flushed(LinesOf(text), keys, data)
  {
    var lines := LinesOf(text);
    LinesOfSound(text);
    MergedSound(lines, data);
    RemainingGood(lines, data);
    AppendedSound(keys, Remaining(lines, data));
    ReadBack(Flushed(lines, keys, data));
  }

  lemma {:induction false} LookupIsLine(lines: seq<string>, key: string)
    ensures Lookup(lines, key).Some? ==> Lookup(lines, key).value in lines
  {
    if lines != [] {
      LookupIsLine(lines[1..], key);
    }
  }

  /** What a key reads as once the pending values override the file. */
  function Overridden(text: string, data: Pending, key: string): Option<string> {
    if IsPending(data, key) then Some(Assign(key, data[key])) else Lookup(LinesOf(text), key)
  }

  lemma OverridesIfNewlineFree(text: string, keys: seq<string>, data: Pending, key: string)
    requires Walks(keys, data) && NewlineFree(data)
    ensures Lookup(LinesOf(FlushText(text, keys, data)), key) == Overridden(text, data, key)
  {
    FlushedSound(text, keys, data);
    FlushOverrides(LinesOf(text), keys, data, key);
  }

  /** A line read from a file never holds a newline, so a value that does is not read back. */
  lemma NewlineIsNotReadBack(text: string, data: Pending, key: string)
    requires key in data && '\n' in data[key]
    ensures Lookup(LinesOf(text), key) != Some(Assign(key, data[key]))
  {
    LinesOfSound(text);
    LookupIsLine(LinesOf(text), key);
    var i :| 0 <= i < |data[key]| && data[key][i] == '\n';
    assert Assign(key, data[key])[|key| + 1 + i] == '\n';
  }

  /** The file read back after a flush is the old file overridden by the pending values, for every key, if and only
      if no pending value holds a newline. */
  lemma FileOverrides(text: string, keys: seq<string>, data: Pending)
    requires Walks(keys, data)
    ensures (forall key :: Lookup(LinesOf(FlushText(text, keys, data)), key) == Overridden(text, data, key))
            <==> NewlineFree(data)
  {
    if NewlineFree(data) {
      forall key
        ensures Lookup(LinesOf(FlushText(text, keys, data)), key) == Overridden(text, data, key)
      {
        OverridesIfNewlineFree(text, keys, data, key);
      }
    } else {
      var k :| k in data && '\n' in data[k];
      NewlineIsNotReadBack(FlushText(text, keys, data), data, k);
      assert Lookup(LinesOf(FlushText(text, keys, data)), k) != Overridden(text, data, k);
    }
  }

  // ---------------------------------------------------------------- repeated flushes

  ghost predicate NothingPending(keys: seq<string>, data: Pending) {
    forall k :: IsPending(data, k) ==> k !in keys
  }

  lemma {:induction false} NothingAppended(keys: seq<string>, data: Pending)
    requires NothingPending(keys, data)
    ensures Appended(keys, data) == []
  {
    if keys != [] {
      assert keys[0] in keys;
      NothingAppended(keys[1..], data);
    }
  }

  lemma {:induction false} NothingMerged(lines: seq<string>, data: Pending)
    requires forall k :: !IsPending(data, k)
    ensures Merged(lines, data) == lines && Remaining(lines, data) == data
  {
    if lines != [] {
      NothingMerged(lines[1..], data);
    }
  }

  /** A second flush with nothing set leaves the file textually unchanged. */
  lemma SecondFlushIsIdle(text: string, keys: seq<string>, data: Pending, cleared: Pending)
    requires Walks(keys, data) && NewlineFree(data) && forall k :: !IsPending(cleared, k)
    ensures FlushText(FlushText(text, keys, data), keys, cleared) == FlushText(text, keys, data)
  {
    FlushedSound(text, keys, data);
    var lines := Flushed(LinesOf(text), keys, data);
    NothingMerged(lines, cleared);
    NothingAppended(keys, cleared);
    assert lines + [] == lines;
  }

  ghost predicate SamePending(a: Pending, b: Pending) {
    forall k :: IsPending(a, k) <==> IsPending(b, k)
  }

  lemma AfterSame(line: string, a: Pending, b: Pending)
    requires SamePending(a, b)
    ensures SamePending(After(line, a), After(line, b))
  {
    forall k
      ensures IsPending(After(line, a), k) <==> IsPending(After(line, b), k)
    {
      assert IsPending(a, k) <==> IsPending(b, k);
      assert IsPending(a, Key(line)) <==> IsPending(b, Key(line));
    }
  }

  lemma {:induction false} MergedTwice(lines: seq<string>, a: Pending, b: Pending)
    requires SamePending(a, b) && forall k :: k in a ==> GoodKey(k)
    ensures Merged(Merged(lines, a), b) == Merged(lines, b)
    ensures Remaining(Merged(lines, a), b) == Remaining(lines, b)
    ensures SamePending(Remaining(lines, a), Remaining(lines, b))
  {
    if lines != [] {
      var once := Merged(lines, a);
      WrittenKey(lines[0], a);
      AfterSame(lines[0], a, b);
      assert IsPending(a, Key(lines[0])) <==> IsPending(b, Key(lines[0]));
      MergedTwice(lines[1..], After(lines[0], a), After(lines[0], b));
      assert once[0] == Written(lines[0], a) && once[1..] == Merged(lines[1..], After(lines[0], a));
    }
  }

  lemma {:induction false} MergedConcat(x: seq<string>, y: seq<string>, data: Pending)
    ensures Merged(x + y, data) == Merged(x, data) + Merged(y, Remaining(x, data))
    ensures Remaining(x + y, data) == Remaining(y, Remaining(x, data))
  {
    if x == [] {
      assert x + y == y;
    } else {
      MergedConcat(x[1..], y, After(x[0], data));
      assert (x + y)[1..] == x[1..] + y;
      Assoc([Written(x[0], data)], Merged(x[1..], After(x[0], data)), Merged(y, Remaining(x, data)));
    }
  }

  /** Lines appended for some keys are rewritten, in place, by new values for the same keys. */
  lemma {:induction false} AppendedTwice(keys: seq<string>, a: Pending, b: Pending)
    requires NoDuplicates(keys) && forall k :: k in keys ==> GoodKey(k)
    requires forall k :: k in keys ==> (IsPending(a, k) <==> IsPending(b, k))
    ensures Merged(Appended(keys, a), b) == Appended(keys, b)
    ensures NothingPending(keys, Remaining(Appended(keys, a), b))
  {
    if keys != [] {
      var k, rest := keys[0], keys[1..];
      if IsPending(a, k) {
        KeyOfAssign(k, a[k]);
        var b' := b[k := ""];
        AppendedTwice(rest, a, b');
        AppendedFrame(rest, b, k);
        var lines := Appended(keys, a);
        assert lines[0] == Assign(k, a[k]) && lines[1..] == Appended(rest, a);
        RemainingIs(Appended(rest, a), b', k);
      } else {
        AppendedTwice(rest, a, b);
        assert Appended(keys, a) == Appended(rest, a) && Appended(keys, b) == Appended(rest, b);
        RemainingIs(Appended(rest, a), b, k);
      }
    }
  }

  /** Setting and flushing twice on the same keys gives the same file as only the last set and flush. */
  lemma LastFlushWins(text: string, keys: seq<string>, first: Pending, last: Pending)
    requires Walks(keys, first) && Walks(keys, last) && NewlineFree(first) && SamePending(first, last)
    ensures FlushText(FlushText(text, keys, first), keys, last) == FlushText(text, keys, last)
  {
    FlushedSound(text, keys, first);
    var lines := LinesOf(text);
    var a, b := Remaining(lines, first), Remaining(lines, last);
    var x, y := Merged(lines, first), Appended(keys, a);
    MergedTwice(lines, first, last);
    MergedConcat(x, y, last);
    AppendedTwice(keys, a, b);
    NothingAppended(keys, Remaining(y, b));
    assert Flushed(lines, keys, first) == x + y;
    assert Merged(x + y, last) == Flushed(lines, keys, last);
    assert Flushed(x + y, keys, last) == Merged(x + y, last) + [] == Flushed(lines, keys, last);
    assert LinesOf(FlushText(text, keys, first)) == x + y;
  }

  /** Both laws for the keys the program has: what a flush leaves is what the last values set make of the old file. */
  lemma ProgramFlushes(text: string, first: Pending, last: Pending)
    requires OfProgram(first) && OfProgram(last) && NewlineFree(first)
    ensures forall key :: Lookup(LinesOf(FlushText(text, KEYS, first)), key) == Overridden(text, first, key)
    ensures SamePending(first, last) ==>
      FlushText(FlushText(text, KEYS, first), KEYS, last) == FlushText(text, KEYS, last)
  {
    ProgramKeysWalk(first);
    ProgramKeysWalk(last);
    FileOverrides(text, KEYS, first);
    if SamePending(first, last) {
      LastFlushWins(text, KEYS, first, last);
    }
  }
}
