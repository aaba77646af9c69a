/**
 * The mapping file: one "name,target" pair per line. Reading the file is outside
 * the model; the loop receives the lines the scanner would produce.
 */
module MapFile {
  import opened Wrappers
  import opened Text

  /** A line is kept when it splits on ',' into exactly two non-empty fields. */
  predicate Accepted(line: string)
  {
    var fields := Split(line, ',');
    |fields| == 2 && fields[0] != "" && fields[1] != ""
  }

  /** The map the loop has built after `lines`: each accepted line stores its second field under its first. */
  function Loaded(lines: seq<string>): map<string, string>
    decreases |lines|
  {
    if lines == [] then map[]
    else
      var m := Loaded(lines[..|lines| - 1]);
      var line := lines[|lines| - 1];
      if Accepted(line) then m[Split(line, ',')[0] := Split(line, ',')[1]] else m
  }

  /**
   * ParseMapFile with the file given as its lines: no map at all for an empty
   * path, otherwise a map, possibly empty, built line by line.
   */
  method ParseMapFile(mapPath: string, lines: seq<string>) returns (m: Option<map<string, string>>)
    ensures m.None? <==> mapPath == ""
    ensures m.Some? ==> m.value == Loaded(lines)
  {
    if mapPath == "" {
      return None;
    }
    var entries: map<string, string> := map[];
    var i := 0;
    while i < |lines|
      invariant 0 <= i <= |lines|
      invariant entries == Loaded(lines[..i])
    {
      var fields := Split(lines[i], ',');
      if |fields| == 2 && fields[0] != "" && fields[1] != "" {
        entries := entries[fields[0] := fields[1]];
      }
      assert lines[..i + 1][..i] == lines[..i];
      i := i + 1;
    }
    assert lines[..i] == lines;
    return Some(entries);
  }

  /** An accepted line is exactly a name, a comma and a target, neither empty nor containing a comma. */
  lemma AcceptedShape(line: string)
    requires Accepted(line)
    ensures multiset(line)[','] == 1
    ensures line == Split(line, ',')[0] + "," + Split(line, ',')[1]
  {
    SplitCount(line, ',');
    SplitJoin(line, ',');
    var f := Split(line, ',');
    assert f == [f[0]] + [f[1]];
    JoinAppend([f[0]], f[1], ",");
  }

  /** Conversely, every such line is accepted and stores that name and target. */
  lemma AcceptedPair(name: string, target: string)
    requires name != "" && target != "" && ',' !in name && ',' !in target
    ensures Accepted(name + "," + target)
    ensures Split(name + "," + target, ',') == [name, target]
  {
    SplitAtFirst(name, ',', target);
    assert Split(target, ',') == [target];
    assert name + "," + target == name + [','] + target;
  }

  /** A line without a comma, or with more than one, is skipped. */
  lemma CommaCountRejected(line: string)
    requires multiset(line)[','] != 1
    ensures !Accepted(line)
  {
    SplitCount(line, ',');
  }

  /** Every stored name and target is non-empty and free of commas. */
  lemma {:induction false} LoadedWellFormed(lines: seq<string>)
    ensures forall k :: k in Loaded(lines) ==> k != "" && ',' !in k && Loaded(lines)[k] != "" && ',' !in Loaded(lines)[k]
    decreases |lines|
  {
    if lines != [] {
      LoadedWellFormed(lines[..|lines| - 1]);
    }
  }

  /** Every stored name comes from some accepted line. */
  lemma {:induction false} LoadedKeySound(lines: seq<string>, k: string)
    requires k in Loaded(lines)
    ensures exists i :: 0 <= i < |lines| && Accepted(lines[i]) && Split(lines[i], ',')[0] == k
    decreases |lines|
  {
    var n := |lines| - 1;
    var line := lines[n];
    if Accepted(line) && Split(line, ',')[0] == k {
      assert Accepted(lines[n]) && Split(lines[n], ',')[0] == k;
    } else {
      LoadedKeySound(lines[..n], k);
      var i :| 0 <= i < n && Accepted(lines[..n][i]) && Split(lines[..n][i], ',')[0] == k;
      assert lines[..n][i] == lines[i];
    }
  }

  /** Conversely, the name of every accepted line is stored. */
  lemma {:induction false} LoadedKeyComplete(lines: seq<string>, i: nat)
    requires i < |lines| && Accepted(lines[i])
    ensures Split(lines[i], ',')[0] in Loaded(lines)
    decreases |lines|
  {
    var n := |lines| - 1;
    if i < n {
      var prefix := lines[..n];
      assert prefix[i] == lines[i];
      LoadedKeyComplete(prefix, i);
    }
  }

  /**
   * The last accepted line for a name decides its target: when line `i` is accepted
   * with name `k` and no later accepted line names `k`, `k` maps to line `i`'s target.
   */
  lemma {:induction false} LoadedLastWins(lines: seq<string>, i: nat)
    requires i < |lines| && Accepted(lines[i])
    requires forall j :: i < j < |lines| && Accepted(lines[j]) ==> Split(lines[j], ',')[0] != Split(lines[i], ',')[0]
    ensures Split(lines[i], ',')[0] in Loaded(lines)
    ensures Loaded(lines)[Split(lines[i], ',')[0]] == Split(lines[i], ',')[1]
    decreases |lines|
  {
    var n := |lines| - 1;
    if i < n {
      var prefix := lines[..n];
      assert prefix[i] == lines[i];
      forall j | i < j < |prefix| && Accepted(prefix[j])
        ensures Split(prefix[j], ',')[0] != Split(prefix[i], ',')[0]
      {
        assert prefix[j] == lines[j];
      }
      LoadedLastWins(prefix, i);
    }
  }

  /** A skipped line can be dropped without changing the map, wherever it stands. */
  lemma {:induction false} RejectedIgnored(before: seq<string>, line: string, after: seq<string>)
    requires !Accepted(line)
    ensures Loaded(before + [line] + after) == Loaded(before + after)
    decreases |after|
  {
    if after == [] {
      assert (before + [line] + after)[..|before| + 1 - 1] == before;
      assert before + after == before;
    } else {
      var n := |after| - 1;
      var last := after[n];
      RejectedIgnored(before, line, after[..n]);
      assert (before + [line] + after)[..|before| + 1 + n] == before + [line] + after[..n];
      assert (before + after)[..|before| + n] == before + after[..n];
      assert (before + [line] + after)[|before| + 1 + n] == last;
      assert (before + after)[|before| + n] == last;
    }
  }
}
