/**
 The file that maps virtual machines to operating systems: one line "number name" each, in any order, with
 unreadable lines ignored and later lines winning. One operation rewrites it, another reads it.
 */
module VmOs {
  import opened Text
  import opened Store

  type Table = map<int, string>

  // ---------------------------------------------------------------- reading

  /** What one line adds: it must have a space, with a number before the first one. */
  function ApplyLine(m: Table, line: string): Table {
    if TrimSpace(line) == [] then m
    else
      var k := Find(line, ' ');
      if k == |line| then m
      else
        var n := Atoi(line[..k]);
        if n.NotANumber? then m else m[n.value := line[k + 1..]]
  }

  function ApplyLines(m: Table, lines: seq<string>): Table
    decreases |lines|
  {
    if lines == [] then m else ApplyLines(ApplyLine(m, lines[0]), lines[1..])
  }

  function Parse(data: string): Table {
    ApplyLines(map[], Split(data, '\n'))
  }

  /** What a file can hold: 64-bit numbers and names without line ends. */
  ghost predicate Holdable(m: Table) {
    forall k | k in m :: InRange(k) && '\n' !in m[k]
  }

  lemma LineHoldable(m: Table, line: string)
    requires Holdable(m) && '\n' !in line
    ensures Holdable(ApplyLine(m, line))
  {
  }

  lemma {:induction false} LinesHoldable(m: Table, lines: seq<string>)
    requires Holdable(m) && forall l | l in lines :: '\n' !in l
    ensures Holdable(ApplyLines(m, lines))
    decreases |lines|
  {
    if lines != [] {
      assert lines[0] in lines;
      LineHoldable(m, lines[0]);
      LinesHoldable(ApplyLine(m, lines[0]), lines[1..]);
    }
  }

  lemma ParseHoldable(data: string)
    ensures Holdable(Parse(data))
  {
    LinesHoldable(map[], Split(data, '\n'));
  }

  // ---------------------------------------------------------------- writing

  function Line(k: int, name: string): string {
    Itoa(k) + " " + name
  }

  function Print(m: Table, order: seq<int>): string
    requires forall k | k in order :: k in m
  {
    if order == [] then "" else Line(order[0], m[order[0]]) + ['\n'] + Print(m, order[1..])
  }

  lemma Together(a: string, b: string, c: string)
    ensures a + b + c == a + (b + c)
  {
  }

  lemma {:induction false} PrintSnoc(m: Table, order: seq<int>, k: int)
    requires (forall j | j in order :: j in m) && k in m
    ensures Print(m, order + [k]) == Print(m, order) + Line(k, m[k]) + ['\n']
    decreases |order|
  {
    if order == [] {
      assert order + [k] == [k] && [k][1..] == [];
    } else {
      assert (order + [k])[1..] == order[1..] + [k];
      PrintSnoc(m, order[1..], k);
      Together(Line(order[0], m[order[0]]) + ['\n'], Print(m, order[1..]), Line(k, m[k]) + ['\n']);
      Together(Print(m, order[1..]), Line(k, m[k]), ['\n']);
      Together(Print(m, order), Line(k, m[k]), ['\n']);
    }
  }

  // ---------------------------------------------------------------- reading what was written

  lemma LineReadsBack(m: Table, k: int, name: string)
    requires InRange(k) && '\n' !in name
    ensures ApplyLine(m, Line(k, name)) == m[k := name] && '\n' !in Line(k, name)
  {
    AtoiItoa(k);
    var line := Line(k, name);
    FindAt(Itoa(k), ' ', name);
    assert line == Itoa(k) + [' '] + name;
    assert line[..|Itoa(k)|] == Itoa(k) && line[|Itoa(k)| + 1..] == name;
    TrimSpaceBlank(line);
    assert line[0] == Itoa(k)[0];
    assert Itoa(k)[0] in Itoa(k) && !IsSpace(line[0]);
    assert line[0] in line;
  }

  /** What stands before the first space is the number, all that follows is the name, and other lines add nothing. */
  lemma LineExactly(m: Table, before: string, name: string)
    requires ' ' !in before
    ensures ApplyLine(m, before + [' '] + name) ==
            if Atoi(before).Number? then m[Atoi(before).value := name] else m
    ensures ApplyLine(m, before) == m
  {
    var line := before + [' '] + name;
    FindAt(before, ' ', name);
    assert line[..|before|] == before && line[|before| + 1..] == name;
    if Atoi(before).Number? {
      var digit := before[|before| - 1];
      assert IsDigit(digit) by {
        assert digit in before && (|before| > 1 ==> digit in before[1..]);
      }
      TrimSpaceBlank(line);
      assert digit in line;
    }
  }

  /** Later lines win. */
  lemma {:induction false} LastLineWins(m: Table, lines: seq<string>, line: string)
    ensures ApplyLines(m, lines + [line]) == ApplyLine(ApplyLines(m, lines), line)
    decreases |lines|
  {
    if lines == [] {
      assert lines + [line] == [line] && [line][1..] == [];
    } else {
      assert (lines + [line])[0] == lines[0] && (lines + [line])[1..] == lines[1..] + [line];
      LastLineWins(ApplyLine(m, lines[0]), lines[1..], line);
    }
  }

  /** The table restricted to the keys of a list. */
  function Chosen(m: Table, order: seq<int>): Table
    requires forall k | k in order :: k in m
  {
    map k | k in order :: m[k]
  }

  lemma EmptyReadsBack(acc: Table)
    ensures ApplyLines(acc, Split("", '\n')) == acc
  {
    assert Split("", '\n') == [""] && [""][1..] == [];
    assert TrimSpace("") == [];
  }

  /** The first line of a file is read first. */
  lemma FirstReadsBack(acc: Table, k: int, name: string, rest: string)
    requires InRange(k) && '\n' !in name
    ensures ApplyLines(acc, Split(Line(k, name) + ['\n'] + rest, '\n'))
         == ApplyLines(acc[k := name], Split(rest, '\n'))
  {
    LineReadsBack(acc, k, name);
    SplitFirst(Line(k, name), '\n', rest);
    var lines := Split(Line(k, name) + ['\n'] + rest, '\n');
    assert lines[0] == Line(k, name) && lines[1..] == Split(rest, '\n');
  }

  lemma ChosenFirst(acc: Table, m: Table, order: seq<int>)
    requires order != [] && order[0] in m && forall k | k in order :: k in m
    ensures acc[order[0] := m[order[0]]] + Chosen(m, order[1..]) == acc + Chosen(m, order)
  {
    assert forall k :: k in order <==> k == order[0] || k in order[1..];
  }

  lemma {:induction false} PrintReadsBack(acc: Table, m: Table, order: seq<int>)
    requires Holdable(m) && forall k | k in order :: k in m
    ensures ApplyLines(acc, Split(Print(m, order), '\n')) == acc + Chosen(m, order)
    decreases |order|
  {
    if order == [] {
      EmptyReadsBack(acc);
      assert acc + Chosen(m, order) == acc;
    } else {
      var k := order[0];
      FirstReadsBack(acc, k, m[k], Print(m, order[1..]));
      PrintReadsBack(acc[k := m[k]], m, order[1..]);
      ChosenFirst(acc, m, order);
    }
  }

  /** A table written in any order of its keys reads back as itself. */
  lemma TableReadsBack(m: Table, order: seq<int>)
    requires Holdable(m) && (forall k | k in order :: k in m) && (forall k | k in m :: k in order)
    ensures Parse(Print(m, order)) == m
  {
    PrintReadsBack(map[], m, order);
    forall k ensures k in Chosen(m, order) <==> k in m {}
    assert Chosen(m, order) == m;
  }

  // ---------------------------------------------------------------- the programs

  method ReadTable(data: string) returns (m: Table)
    ensures m == Parse(data)
  {
    var lines := Split(data, '\n');
    m := map[];
    for i := 0 to |lines|
      invariant ApplyLines(m, lines[i..]) == Parse(data)
    {
      var line := lines[i];
      assert lines[i..][0] == line && lines[i..][1..] == lines[i + 1..];
      if TrimSpace(line) == "" {
        continue;
      }
      var k := Find(line, ' ');
      if k == |line| {
        continue;
      }
      var n := Atoi(line[..k]);
      if n.NotANumber? {
        continue;
      }
      m := m[n.value := line[k + 1..]];
    }
  }

  /** The keys come in whatever order the map gives them. */
  method WriteTable(m: Table) returns (data: string, ghost order: seq<int>)
    ensures (forall k | k in order :: k in m) && (forall k | k in m :: k in order)
    ensures data == Print(m, order)
  {
    data, order := "", [];
    var left := m.Keys;
    while left != {}
      invariant left <= m.Keys
      invariant (forall k | k in order :: k in m) && (forall k | k in m :: k in left || k in order)
      invariant data == Print(m, order)
      decreases |left|
    {
      var k := AnyOf(left);
      left := left - {k};
      PrintSnoc(m, order, k);
      data := data + Line(k, m[k]) + ['\n'];
      order := order + [k];
    }
  }

  /** Rewriting the file changes exactly one entry, whatever the file held before; a missing file counts as empty. */
  method UpdateOsConfig(file: string, vm: int, name: string) returns (file': string)
    requires InRange(vm) && '\n' !in name
    ensures Parse(file') == Parse(file)[vm := name]
  {
    var m := ReadTable(file);
    ParseHoldable(file);
    m := m[vm := name];
    ghost var order;
    file', order := WriteTable(m);
    TableReadsBack(m, order);
  }

  datatype Altered = Altered(file: string) | InvalidNumber | InvalidSystem

  /** The canonical name of a requested system; the empty name stands for an unknown one. */
  function SystemName(text: string): string {
    var name := Lower(TrimSpace(text));
    if name in {"windows_7", "windows-7", "windows7"} then "Windows 7"
    else if name in {"ubuntu_20", "ubuntu-20", "ubuntu20"} then "Ubuntu 20"
    else ""
  }

  method AlterVmOs(file: string, number: string, text: string) returns (r: Altered)
    ensures r.InvalidNumber? <==> Atoi(number).NotANumber? || !(1 <= Atoi(number).value <= 8)
    ensures r.InvalidSystem? <==> !r.InvalidNumber? && SystemName(text) == ""
    ensures r.Altered? ==> Parse(r.file) == Parse(file)[Atoi(number).value := SystemName(text)]
    ensures var word := Lower(TrimSpace(text));
            var windows := word in {"windows_7", "windows-7", "windows7"};
            var ubuntu := word in {"ubuntu_20", "ubuntu-20", "ubuntu20"};
            && (r.InvalidSystem? <==> !r.InvalidNumber? && !windows && !ubuntu)
            && (r.Altered? ==> 1 <= Atoi(number).value <= 8
                               && Parse(r.file) == Parse(file)[Atoi(number).value :=
                                    if windows then "Windows 7" else "Ubuntu 20"])
  {
    var vm := Atoi(number);
    if vm.NotANumber? || vm.value < 1 || vm.value > 8 {
      return InvalidNumber;
    }
    var name := SystemName(text);
    if name == "" {
      return InvalidSystem;
    }
    var file' := UpdateOsConfig(file, vm.value, name);
    return Altered(file');
  }

  /** The table with "windows7" for the machines from 1 up to n that it does not name. */
  ghost function Filled(m: Table, n: nat): Table {
    m + map k | 1 <= k <= n && k !in m :: "windows7"
  }

  /** Every machine from 1 to 8 gets a system; what the file says stays. */
  ghost function WithDefaults(m: Table): Table {
    Filled(m, 8)
  }

  lemma FilledNext(m: Table, n: nat)
    ensures Filled(m, n + 1) == if n + 1 in Filled(m, n) then Filled(m, n) else Filled(m, n)[n + 1 := "windows7"]
  {
  }

  method ReadVmOs(file: string) returns (m: Table)
    ensures m == WithDefaults(Parse(file)) && forall k | 1 <= k <= 8 :: k in m
    ensures forall k | k in m :: k in Parse(file) || 1 <= k <= 8
    ensures forall k | k in m :: m[k] == if k in Parse(file) then Parse(file)[k] else "windows7"
  {
    m := ReadTable(file);
    ghost var parsed := m;
    assert m == Filled(parsed, 0);
    for i := 1 to 9
      invariant m == Filled(parsed, i - 1)
    {
      FilledNext(parsed, i - 1);
      if i !in m {
        m := m[i := "windows7"];
      }
    }
  }

  /** After an alteration the reader sees the new system for that machine and the old ones for all others. */
  lemma AlterThenRead(file: string, file': string, vm: int, name: string)
    requires 1 <= vm <= 8 && Parse(file') == Parse(file)[vm := name]
    ensures WithDefaults(Parse(file')) == WithDefaults(Parse(file))[vm := name]
  {
  }
}
