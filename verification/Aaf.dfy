/** The Android configuration file `mixins.spec`: pending key/value pairs are merged into its lines in place. */
module Aaf {
  import opened Options
  import opened Text

  type Pending = map<string, string>

  // ---------------------------------------------------------------- lines

  /** The part of a line before the first colon, or the whole line. */
  function Key(line: string): string {
    if line == "" || line[0] == ':' then "" else [line[0]] + Key(line[1..])
  }

  /** The key of a line without a colon is the whole line; otherwise the line is its key, a colon and the rest. */
  lemma {:induction false} KeyIsExact(line: string)
    ensures ':' !in Key(line) && Key(line) <= line
    ensures if ':' in line then Key(line) + [':'] <= line else Key(line) == line
  {
    if line != "" && line[0] != ':' {
      KeyIsExact(line[1..]);
      assert line == [line[0]] + line[1..];
    }
  }

  function Assign(key: string, value: string): string {
    key + [':'] + value
  }

  /** The lines the program keeps: those with a key. */
  function Keyed(lines: seq<string>): seq<string> {
    if lines == [] then []
    else (if Key(lines[0]) == "" then [] else [lines[0]]) + Keyed(lines[1..])
  }

  lemma {:induction false} KeyedConcat(a: seq<string>, b: seq<string>)
    ensures Keyed(a + b) == Keyed(a) + Keyed(b)
  {
    if a == [] {
      assert a + b == b;
    } else {
      var head := if Key(a[0]) == "" then [] else [a[0]];
      KeyedConcat(a[1..], b);
      assert (a + b)[0] == a[0] && (a + b)[1..] == a[1..] + b;
      Assoc(head, Keyed(a[1..]), Keyed(b));
      assert Keyed(a + b) == head + Keyed((a + b)[1..]);
    }
  }

  lemma KeyedOne(line: string)
    ensures Keyed([line]) == if line == "" || line[0] == ':' then [] else [line]
  {
    assert Keyed([line]) == (if Key(line) == "" then [] else [line]) + Keyed([]);
  }

  /** The lines kept are all those that are neither empty nor begin with a colon, in order. */
  lemma KeyedIsFilter(a: seq<string>, line: string, b: seq<string>)
    ensures Keyed(a + [line] + b) == Keyed(a) + (if line == "" || line[0] == ':' then [] else [line]) + Keyed(b)
  {
    KeyedConcat(a + [line], b);
    KeyedConcat(a, [line]);
    KeyedOne(line);
  }

  /** The keyed lines of a file. */
  function LinesOf(text: string): seq<string> {
    Keyed(Split(text, '\n'))
  }

  function Render(lines: seq<string>): string {
    if lines == [] then "" else lines[0] + ['\n'] + Render(lines[1..])
  }

  /** The first line with that key. */
  function Lookup(lines: seq<string>, key: string): Option<string> {
    if lines == [] then None
    else if Key(lines[0]) == key then Some(lines[0])
    else Lookup(lines[1..], key)
  }

  // ---------------------------------------------------------------- the merge

  predicate IsPending(data: Pending, key: string) {
    key in data && data[key] != ""
  }

  /** The line as it is written out. */
  function Written(line: string, data: Pending): string {
    if IsPending(data, Key(line)) then Assign(Key(line), data[Key(line)]) else line
  }

  /** What is still pending after the line. */
  function After(line: string, data: Pending): Pending {
    if IsPending(data, Key(line)) then data[Key(line) := ""] else data
  }

  function Merged(lines: seq<string>, data: Pending): seq<string> {
    if lines == [] then [] else [Written(lines[0], data)] + Merged(lines[1..], After(lines[0], data))
  }

  function Remaining(lines: seq<string>, data: Pending): Pending {
    if lines == [] then data else Remaining(lines[1..], After(lines[0], data))
  }

  /** The lines appended for what the file did not mention, in key order. */
  function Appended(keys: seq<string>, data: Pending): seq<string> {
    if keys == [] then []
    else (if IsPending(data, keys[0]) then [Assign(keys[0], data[keys[0]])] else []) + Appended(keys[1..], data)
  }

  /** The lines of the file after a flush. */
  function Flushed(lines: seq<string>, keys: seq<string>, data: Pending): seq<string> {
    Merged(lines, data) + Appended(keys, Remaining(lines, data))
  }

  /** The text of the file after a flush; a file that does not exist counts as empty. */
  function FlushText(text: string, keys: seq<string>, data: Pending): string {
    Render(Flushed(LinesOf(text), keys, data))
  }

  lemma {:induction false} RenderConcat(a: seq<string>, b: seq<string>)
    ensures Render(a + b) == Render(a) + Render(b)
  {
    if a == [] {
      assert a + b == b;
    } else {
      RenderConcat(a[1..], b);
      assert (a + b)[1..] == a[1..] + b;
    }
  }

  lemma RenderSnoc(lines: seq<string>, line: string)
    ensures Render(lines + [line]) == Render(lines) + line + ['\n']
  {
    RenderConcat(lines, [line]);
    assert Render([line]) == line + ['\n'];
  }

  /** A line without a key adds nothing. */
  lemma SkipStep(pieces: seq<string>)
    requires pieces != [] && Key(pieces[0]) == ""
    ensures Keyed(pieces) == Keyed(pieces[1..])
  {
    assert [] + Keyed(pieces[1..]) == Keyed(pieces[1..]);
  }

  /** One keyed line of the old file: what it adds to the output and leaves pending. */
  lemma MergeStep(done: seq<string>, pieces: seq<string>, data: Pending)
    requires pieces != [] && Key(pieces[0]) != ""
    ensures done + Merged(Keyed(pieces), data) ==
      (done + [Written(pieces[0], data)]) + Merged(Keyed(pieces[1..]), After(pieces[0], data))
    ensures Remaining(Keyed(pieces), data) == Remaining(Keyed(pieces[1..]), After(pieces[0], data))
  {
    var lines := Keyed(pieces);
    assert lines == [pieces[0]] + Keyed(pieces[1..]) && lines[1..] == Keyed(pieces[1..]);
    Assoc(done, [Written(pieces[0], data)], Merged(lines[1..], After(pieces[0], data)));
  }

  /** One key of the walk over what is still pending. */
  lemma AppendStep(done: seq<string>, keys: seq<string>, data: Pending)
    requires keys != [] && keys[0] !in keys[1..]
    ensures IsPending(data, keys[0]) ==>
      (done + Appended(keys, data) ==
       (done + [Assign(keys[0], data[keys[0]])]) + Appended(keys[1..], data[keys[0] := ""]))
    ensures !IsPending(data, keys[0]) ==> Appended(keys, data) == Appended(keys[1..], data)
  {
    AppendedFrame(keys[1..], data, keys[0]);
    if IsPending(data, keys[0]) {
      Assoc(done, [Assign(keys[0], data[keys[0]])], Appended(keys[1..], data));
    } else {
      assert [] + Appended(keys[1..], data) == Appended(keys[1..], data);
    }
  }

  /** What is appended follows the order of the walk, one line for each pending key. */
  lemma {:induction false} AppendedInOrder(a: seq<string>, b: seq<string>, data: Pending)
    ensures Appended(a + b, data) == Appended(a, data) + Appended(b, data)
    ensures |a| == 1 ==>
      Appended(a, data) == if a[0] in data && data[a[0]] != "" then [a[0] + ":" + data[a[0]]] else []
  {
    if a == [] {
      assert a + b == b;
    } else {
      var head := if IsPending(data, a[0]) then [Assign(a[0], data[a[0]])] else [];
      AppendedInOrder(a[1..], b, data);
      assert (a + b)[0] == a[0] && (a + b)[1..] == a[1..] + b;
      assert Appended(a, data) == head + Appended(a[1..], data);
      assert Appended(a + b, data) == head + Appended((a + b)[1..], data);
      Assoc(head, Appended(a[1..], data), Appended(b, data));
    }
  }

  lemma {:induction false} AppendedFrame(keys: seq<string>, data: Pending, key: string)
    requires key !in keys
    ensures Appended(keys, data[key := ""]) == Appended(keys, data)
  {
    if keys != [] {
      AppendedFrame(keys[1..], data, key);
    }
  }

  ghost predicate NoDuplicates(keys: seq<string>) {
    keys == [] || (keys[0] !in keys[1..] && NoDuplicates(keys[1..]))
  }

  // ---------------------------------------------------------------- the object

  const AUDIO: string := "audio-type"
  const GPU_TYPE: string := "gpu-type"
  const SUSPEND: string := "suspend"

  /** The keys of the map, in the order it is walked. */
  const KEYS: seq<string> := [AUDIO, GPU_TYPE, SUSPEND]

  /** What the configured path denotes; a directory may hold the file. */
  datatype Place = Missing | NotADirectory | Directory(spec: Option<string>)

  class AafConfig {
    const path: string
    var data: Pending
    var place: Place

    ghost predicate Valid()
      reads this
    {
      forall k :: k in data <==> k in KEYS
    }

    constructor (path: string, place: Place)
      ensures Valid() && this.path == path && this.place == place && forall k :: k in KEYS ==> data[k] == ""
    {
      this.path := path;
      this.place := place;
      data := map[AUDIO := "", GPU_TYPE := "", SUSPEND := ""];
    }

    method Set(key: string, value: string)
      requires Valid()
      modifies this`data
      ensures Valid() && data == if key in KEYS then old(data)[key := value] else old(data)
    {
      if key in data {
        data := data[key := value];
      }
    }

    method Flush()
      requires Valid()
      modifies this
      ensures Valid()
      ensures path == "" || !old(place).Directory? ==> data == old(data) && place == old(place)
      ensures path != "" && old(place).Directory? ==>
        && place == Directory(Some(FlushText(if old(place).spec.Some? then old(place).spec.value else "", KEYS, old(data))))
        && forall k :: k in data ==> data[k] == ""
    {
      if path == "" || !place.Directory? {
        return;
      }
      var out := "";
      if place.spec.Some? {
        out := MergeFile(place.spec.value);
      } else {
        assert LinesOf("") == [];
      }
      KeysDiffer();
      ghost var lines := LinesOf(if place.spec.Some? then place.spec.value else "");
      out := AppendPending(KEYS, out, Merged(lines, old(data)));
      place := Directory(Some(out));
    }

    /** The walk over the map: appends what is still pending and clears it. */
    method AppendPending(keys: seq<string>, written: string, ghost lines: seq<string>) returns (out: string)
      requires written == Render(lines) && NoDuplicates(keys)
      requires forall k :: k in data <==> k in keys
      modifies this`data
      ensures out == Render(lines + Appended(keys, old(data)))
      ensures forall k :: k in data <==> k in keys
      ensures forall k :: k in data ==> data[k] == ""
    {
      out := written;
      ghost var done := lines;
      var i := 0;
      assert keys[0..] == keys;
      while i < |keys|
        invariant 0 <= i <= |keys|
        invariant forall k :: k in data <==> k in keys
        invariant out == Render(done) && NoDuplicates(keys[i..])
        invariant done + Appended(keys[i..], data) == lines + Appended(keys, old(data))
        invariant forall j :: 0 <= j < i ==> data[keys[j]] == ""
      {
        AppendStep(done, keys[i..], data);
        assert keys[i..][1..] == keys[i + 1..];
        if data[keys[i]] != "" {
          RenderSnoc(done, Assign(keys[i], data[keys[i]]));
          done := done + [Assign(keys[i], data[keys[i]])];
          out := out + Assign(keys[i], data[keys[i]]) + ['\n'];
          data := data[keys[i] := ""];
        }
        i := i + 1;
      }
      assert done + [] == done;
    }

    /** The loop over the old file: reads lines until the end of the stream and writes each out again. */
    method MergeFile(text: string) returns (out: string)
      requires Valid()
      modifies this`data
      ensures Valid() && out == Render(Merged(LinesOf(text), old(data))) && data == Remaining(LinesOf(text), old(data))
    {
      out := "";
      var pos, eof := 0, false;
      ghost var done: seq<string>, rest := [], Split(text, '\n');
      assert text[0..] == text;
      while !eof
        invariant 0 <= pos <= |text| && Valid()
        invariant rest == if eof then [] else Split(text[pos..], '\n')
        invariant out == Render(done)
        invariant done + Merged(Keyed(rest), data) == Merged(LinesOf(text), old(data))
        invariant Remaining(Keyed(rest), data) == Remaining(LinesOf(text), old(data))
        decreases !eof, |text| - pos
      {
        var line;
        line, pos, eof := GetLine(text, pos);
        ghost var pieces := rest;
        rest := if eof then [] else Split(text[pos..], '\n');
        assert pieces[0] == line && pieces[1..] == rest;
        if line == "" {
          SkipStep(pieces);
          continue;
        }
        var key := Key(line);
        if key == "" {
          SkipStep(pieces);
          continue;
        }
        MergeStep(done, pieces, data);
        RenderSnoc(done, Written(line, data));
        done := done + [Written(line, data)];
        if key in data && data[key] != "" {
          out := out + Assign(key, data[key]) + ['\n'];
          data := data[key := ""];
        } else {
          out := out + line + ['\n'];
        }
      }
      assert done + [] == done;
    }
  }

  lemma KeysDiffer()
    ensures NoDuplicates(KEYS)
  {
    assert AUDIO[0] != GPU_TYPE[0] && AUDIO[0] != SUSPEND[0] && GPU_TYPE[0] != SUSPEND[0];
    assert NoDuplicates([SUSPEND]);
    assert [GPU_TYPE, SUSPEND][1..] == [SUSPEND] && NoDuplicates([GPU_TYPE, SUSPEND]);
    assert KEYS[1..] == [GPU_TYPE, SUSPEND];
  }

  /** `getline`: the characters up to the next newline, which is consumed, or up to the end of the stream. */
  method GetLine(text: string, pos: nat) returns (line: string, next: nat, eof: bool)
    requires pos <= |text|
    ensures pos <= next <= |text| && (!eof ==> pos < next)
    ensures Split(text[pos..], '\n') == [line] + if eof then [] else Split(text[next..], '\n')
  {
    next := pos;
    while next < |text| && text[next] != '\n'
      invariant pos <= next <= |text|
      invariant '\n' !in text[pos..next]
    {
      next := next + 1;
    }
    line := text[pos..next];
    eof := next == |text|;
    SplitWhole(line, '\n');
    if !eof {
      SplitAt(line, '\n', text[next + 1..]);
      assert text[pos..] == line + ['\n'] + text[next + 1..];
      next := next + 1;
    } else {
      assert text[pos..] == line;
    }
  }
}
