// Deleting the corpus files a bounded merge proved redundant. The merge's output is not trusted
// beyond the digests it selected, and a file is deleted only while it is still the file the
// merge was given. Digests are taken as injective; equal stat means unchanged content.
module CorpusCompaction {
  datatype Stat = Stat(id: nat, size: nat)

  datatype OnDisk = OnDisk(stat: Stat, digest: nat)

  // A file as it was when the merge was started.
  datatype Seen = Seen(name: string, file: OnDisk)

  // A file of the merge's output directory.
  datatype Output = Output(regular: bool, file: OnDisk)

  datatype Status = InvalidOutput | StillOverLimit | Deferred | TimedOut | Merged

  datatype Result = Result(status: Status, removedFiles: nat, removedBytes: nat)

  predicate DistinctNames(s: seq<Seen>) {
    forall i, j :: 0 <= i < j < |s| ==> s[i].name != s[j].name
  }

  function Digests(s: seq<Seen>): set<nat> {
    set i | 0 <= i < |s| :: s[i].file.digest
  }

  function Bytes(s: seq<Seen>): nat {
    if s == [] then 0 else Bytes(s[..|s| - 1]) + s[|s| - 1].file.stat.size
  }

  function Directory(s: seq<Seen>): map<string, OnDisk>
    requires DistinctNames(s)
  {
    if s == [] then map[] else Directory(s[..|s| - 1])[s[|s| - 1].name := s[|s| - 1].file]
  }

  // ---------- the partition ----------

  // The first file of a selected digest is kept.
  predicate Keeps(s: seq<Seen>, selected: set<nat>, i: nat)
    requires i < |s|
  {
    s[i].file.digest in selected && forall j :: 0 <= j < i ==> s[j].file.digest != s[i].file.digest
  }

  function Kept(s: seq<Seen>, selected: set<nat>, n: nat): seq<Seen>
    requires n <= |s|
  {
    if n == 0 then []
    else if Keeps(s, selected, n - 1) then Kept(s, selected, n - 1) + [s[n - 1]]
    else Kept(s, selected, n - 1)
  }

  function Redundant(s: seq<Seen>, selected: set<nat>, n: nat): seq<Seen>
    requires n <= |s|
  {
    if n == 0 then []
    else if Keeps(s, selected, n - 1) then Redundant(s, selected, n - 1)
    else Redundant(s, selected, n - 1) + [s[n - 1]]
  }

  lemma {:induction false} BytesAppend(s: seq<Seen>, f: Seen)
    ensures Bytes(s + [f]) == Bytes(s) + f.file.stat.size
  {
    assert (s + [f])[..|s|] == s;
  }

  lemma {:induction false} PrefixStep(s: seq<Seen>, n: nat)
    requires n < |s|
    ensures s[..n + 1] == s[..n] + [s[n]]
  {
  }

  lemma {:induction false} SidesCount(s: seq<Seen>, selected: set<nat>, n: nat)
    requires n <= |s|
    ensures |Kept(s, selected, n)| + |Redundant(s, selected, n)| == n
  {
    if n > 0 {
      SidesCount(s, selected, n - 1);
    }
  }

  lemma {:induction false} SidesBytes(s: seq<Seen>, selected: set<nat>, n: nat)
    requires n <= |s|
    ensures Bytes(Kept(s, selected, n)) + Bytes(Redundant(s, selected, n)) == Bytes(s[..n])
  {
    if n > 0 {
      SidesBytes(s, selected, n - 1);
      PrefixStep(s, n - 1);
      BytesAppend(s[..n - 1], s[n - 1]);
      BytesAppend(Kept(s, selected, n - 1), s[n - 1]);
      BytesAppend(Redundant(s, selected, n - 1), s[n - 1]);
    }
  }

  // Kept and redundant share out the snapshot, in files and in bytes.
  lemma PartitionIsWhole(s: seq<Seen>, selected: set<nat>)
    ensures |Kept(s, selected, |s|)| + |Redundant(s, selected, |s|)| == |s|
    ensures Bytes(Kept(s, selected, |s|)) + Bytes(Redundant(s, selected, |s|)) == Bytes(s)
  {
    SidesCount(s, selected, |s|);
    SidesBytes(s, selected, |s|);
    assert s[..|s|] == s;
  }

  lemma SelectedStep(selected: set<nat>, digests: set<nat>, d: nat)
    ensures selected * (digests + {d}) == if d in selected then selected * digests + {d} else selected * digests
    ensures d in selected * digests ==> selected * digests + {d} == selected * digests
  {
  }

  // The kept files carry every selected digest the snapshot had, each once.
  lemma {:induction false} KeptCovers(s: seq<Seen>, selected: set<nat>, n: nat)
    requires n <= |s|
    ensures Digests(Kept(s, selected, n)) == selected * Digests(s[..n])
    ensures |Kept(s, selected, n)| == |Digests(Kept(s, selected, n))|
  {
    if n == 0 {
      assert Digests([]) == {};
    } else {
      KeptCovers(s, selected, n - 1);
      KeptTest(s, selected, n - 1);
      PrefixStep(s, n - 1);
      var kept, last, seen := Kept(s, selected, n - 1), s[n - 1], Digests(s[..n - 1]);
      DigestsAppend(s[..n - 1], last);
      SelectedStep(selected, seen, last.file.digest);
      if last.file.digest in selected && last.file.digest !in Digests(kept) {
        assert Kept(s, selected, n) == kept + [last];
        DigestsAppend(kept, last);
      } else {
        assert Kept(s, selected, n) == kept;
      }
    }
  }

  lemma DigestsAppend(s: seq<Seen>, f: Seen)
    ensures Digests(s + [f]) == Digests(s) + {f.file.digest}
  {
    var t := s + [f];
    assert forall i :: 0 <= i < |s| ==> t[i] == s[i];
    assert t[|s|] == f;
  }

  // Nothing stands on both sides.
  lemma {:induction false} SidesDiffer(s: seq<Seen>, selected: set<nat>, n: nat, k: Seen, r: Seen)
    requires n <= |s| && DistinctNames(s)
    requires k in Kept(s, selected, n) && r in Redundant(s, selected, n)
    ensures k.name != r.name && k in s[..n] && r in s[..n]
  {
    var last := s[n - 1];
    assert s[..n] == s[..n - 1] + [last];
    if k in Kept(s, selected, n - 1) && r in Redundant(s, selected, n - 1) {
      SidesDiffer(s, selected, n - 1, k, r);
    } else if k == last {
      MemberOf(s, selected, n - 1, r);
    } else {
      MemberOf(s, selected, n - 1, k);
    }
  }

  lemma {:induction false} MemberOf(s: seq<Seen>, selected: set<nat>, n: nat, f: Seen)
    requires n <= |s|
    ensures f in Kept(s, selected, n) || f in Redundant(s, selected, n) <==> f in s[..n]
  {
    if n > 0 {
      MemberOf(s, selected, n - 1, f);
      PrefixStep(s, n - 1);
    }
  }

  method Partition(s: seq<Seen>, selected: set<nat>) returns (kept: set<nat>, redundant: seq<Seen>, keptBytes: nat)
    ensures kept == Digests(Kept(s, selected, |s|)) && |kept| == |Kept(s, selected, |s|)|
    ensures redundant == Redundant(s, selected, |s|) && keptBytes == Bytes(Kept(s, selected, |s|))
  {
    kept, redundant, keptBytes := {}, [], 0;
    for n := 0 to |s|
      invariant kept == Digests(Kept(s, selected, n))
      invariant redundant == Redundant(s, selected, n) && keptBytes == Bytes(Kept(s, selected, n))
    {
      KeptCovers(s, selected, n);
      KeptTest(s, selected, n);
      DigestsAppend(Kept(s, selected, n), s[n]);
      BytesAppend(Kept(s, selected, n), s[n]);
      if s[n].file.digest in selected && s[n].file.digest !in kept {
        kept := kept + {s[n].file.digest};
        keptBytes := keptBytes + s[n].file.stat.size;
      } else {
        redundant := redundant + [s[n]];
      }
    }
    KeptCovers(s, selected, |s|);
  }

  lemma KeptTest(s: seq<Seen>, selected: set<nat>, n: nat)
    requires n < |s| && Digests(Kept(s, selected, n)) == selected * Digests(s[..n])
    ensures Keeps(s, selected, n) <==> s[n].file.digest in selected && s[n].file.digest !in Digests(Kept(s, selected, n))
  {
    if s[n].file.digest in Digests(s[..n]) {
      var j :| 0 <= j < n && s[..n][j].file.digest == s[n].file.digest;
      assert s[j].file.digest == s[n].file.digest;
    } else {
      forall j | 0 <= j < n
        ensures s[j].file.digest != s[n].file.digest
      {
        assert s[..n][j].file.digest in Digests(s[..n]);
      }
    }
  }

  // ---------- the deletion ----------

  // The world between deletions: the deadline or a cancellation, and files that cannot be read
  // or removed.
  datatype World = World(stops: nat -> bool, fails: nat -> bool)

  // The first n redundant files that are still what they were and could be removed.
  function Removed(files: map<string, OnDisk>, redundant: seq<Seen>, w: World, n: nat): seq<Seen>
    requires n <= |redundant|
  {
    if n == 0 then []
    else
      var r := redundant[n - 1];
      if r.name in files && files[r.name].stat == r.file.stat && !w.fails(n - 1)
      then Removed(files, redundant, w, n - 1) + [r]
      else Removed(files, redundant, w, n - 1)
  }

  function Names(s: seq<Seen>): set<string> {
    set i | 0 <= i < |s| :: s[i].name
  }

  lemma NamesAppend(s: seq<Seen>, f: Seen)
    ensures Names(s + [f]) == Names(s) + {f.name}
  {
    var t := s + [f];
    assert forall i :: 0 <= i < |s| ==> t[i] == s[i];
    assert t[|s|] == f;
  }

  lemma {:induction false} RemovedAmong(files: map<string, OnDisk>, redundant: seq<Seen>, w: World, n: nat)
    requires n <= |redundant|
    ensures forall r :: r in Removed(files, redundant, w, n) ==> r in redundant[..n] && r.name in files && files[r.name].stat == r.file.stat
  {
    if n > 0 {
      RemovedAmong(files, redundant, w, n - 1);
      assert redundant[..n] == redundant[..n - 1] + [redundant[n - 1]];
    }
  }

  class CorpusFiles {
    var files: map<string, OnDisk>

    constructor (files: map<string, OnDisk>)
      ensures this.files == files
    {
      this.files := files;
    }

    // Deletes redundant files until told to stop.
    method Delete(redundant: seq<Seen>, w: World) returns (result: Result, ghost reached: nat)
      requires DistinctNames(redundant)
      modifies this
      ensures reached <= |redundant| && (result.status.Merged? <==> reached == |redundant|)
      ensures result.status.Merged? || result.status.TimedOut?
      ensures reached < |redundant| ==> w.stops(reached)
      ensures forall i :: 0 <= i < reached ==> !w.stops(i)
      ensures var removed := Removed(old(files), redundant, w, reached);
              && files == old(files) - Names(removed)
              && result.removedFiles == |removed| && result.removedBytes == Bytes(removed)
    {
      result, reached := Result(Merged, 0, 0), 0;
      assert files == old(files) - Names([]);
      for n := 0 to |redundant|
        invariant reached == n && result.status.Merged?
        invariant forall i :: 0 <= i < n ==> !w.stops(i)
        invariant var removed := Removed(old(files), redundant, w, n);
                  && files == old(files) - Names(removed)
                  && result.removedFiles == |removed| && result.removedBytes == Bytes(removed)
      {
        if w.stops(n) {
          result := result.(status := TimedOut);
          return;
        }
        var r := redundant[n];
        ghost var removed := Removed(old(files), redundant, w, n);
        NotYetRemoved(old(files), redundant, w, n);
        NamesAppend(removed, r);
        BytesAppend(removed, r);
        if r.name in files && files[r.name].stat == r.file.stat && !w.fails(n) {
          files := files - {r.name};
          result := result.(removedFiles := result.removedFiles + 1, removedBytes := result.removedBytes + r.file.stat.size);
        }
        reached := n + 1;
      }
    }

    // The whole compaction, from the merge's output on. Whatever it does, a file remains.
    method Compact(snapshot: seq<Seen>, output: seq<Output>, maxFiles: nat, maxBytes: nat, busy: bool, w: World)
      returns (result: Result, ghost reached: nat)
      requires DistinctNames(snapshot)
      modifies this
      ensures var redundant := Redundant(snapshot, Selected(output), |snapshot|);
              && reached <= |redundant| && files == old(files) - Names(Removed(old(files), redundant, w, reached))
              && result.removedFiles == |Removed(old(files), redundant, w, reached)|
              && result.removedBytes == Bytes(Removed(old(files), redundant, w, reached))
      ensures result.status.InvalidOutput? <==> !Acceptable(snapshot, output)
      ensures result.status.StillOverLimit? <==>
                (Acceptable(snapshot, output) &&
                 (|Kept(snapshot, Selected(output), |snapshot|)| > maxFiles ||
                  Bytes(Kept(snapshot, Selected(output), |snapshot|)) > maxBytes))
      ensures result.status.Merged? ==> reached == |Redundant(snapshot, Selected(output), |snapshot|)|
      ensures !result.status.Merged? && !result.status.TimedOut? ==> files == old(files)
      ensures result.status.TimedOut? ==> exists i :: w.stops(i)
      ensures result.removedFiles > 0 ==> result.removedFiles < |snapshot|
    {
      reached := 0;
      assert files == files - Names([]);
      var selected := Selected(output);
      if !Acceptable(snapshot, output) {
        return Result(InvalidOutput, 0, 0), 0;
      }
      var kept, redundant, keptBytes := Partition(snapshot, selected);
      if |kept| > maxFiles || keptBytes > maxBytes {
        return Result(StillOverLimit, 0, 0), 0;
      }
      if busy {
        return Result(Deferred, 0, 0), 0;
      }
      RedundantDistinct(snapshot, selected, |snapshot|);
      SomethingRemains(snapshot, output);
      ghost var before := files;
      result, reached := Delete(redundant, w);
      RemovedBound(before, redundant, w, reached);
    }
  }

  function Selected(output: seq<Output>): set<nat> {
    set i | 0 <= i < |output| :: output[i].file.digest
  }

  function OutputBytes(output: seq<Output>): nat {
    if output == [] then 0 else OutputBytes(output[..|output| - 1]) + output[|output| - 1].file.stat.size
  }

  // A merge may only select: some of the files it was given, and nothing else.
  predicate Acceptable(snapshot: seq<Seen>, output: seq<Output>) {
    && 0 < |output| <= |snapshot|
    && (forall i :: 0 <= i < |output| ==> output[i].regular)
    && OutputBytes(output) <= Bytes(snapshot)
    && Selected(output) <= Digests(snapshot)
  }

  lemma SomethingRemains(snapshot: seq<Seen>, output: seq<Output>)
    requires Acceptable(snapshot, output)
    ensures |Redundant(snapshot, Selected(output), |snapshot|)| < |snapshot|
  {
    KeptCovers(snapshot, Selected(output), |snapshot|);
    assert snapshot[..|snapshot|] == snapshot;
    assert output[0].file.digest in Selected(output);
    assert output[0].file.digest in Digests(Kept(snapshot, Selected(output), |snapshot|));
    PartitionIsWhole(snapshot, Selected(output));
  }

  lemma {:induction false} RemovedBound(files: map<string, OnDisk>, redundant: seq<Seen>, w: World, n: nat)
    requires n <= |redundant|
    ensures |Removed(files, redundant, w, n)| <= n
  {
    if n > 0 {
      RemovedBound(files, redundant, w, n - 1);
    }
  }

  lemma NotYetRemoved(files: map<string, OnDisk>, redundant: seq<Seen>, w: World, n: nat)
    requires n < |redundant| && DistinctNames(redundant)
    ensures redundant[n].name !in Names(Removed(files, redundant, w, n))
  {
    RemovedAmong(files, redundant, w, n);
    var removed := Removed(files, redundant, w, n);
    forall i | 0 <= i < |removed|
      ensures removed[i].name != redundant[n].name
    {
      assert removed[i] in redundant[..n];
    }
  }

  lemma {:induction false} RedundantDistinct(s: seq<Seen>, selected: set<nat>, n: nat)
    requires n <= |s| && DistinctNames(s)
    ensures DistinctNames(Redundant(s, selected, n)) && DistinctNames(Kept(s, selected, n))
  {
    if n > 0 {
      RedundantDistinct(s, selected, n - 1);
      forall f | f in Redundant(s, selected, n - 1) || f in Kept(s, selected, n - 1)
        ensures f.name != s[n - 1].name
      {
        MemberOf(s, selected, n - 1, f);
      }
    }
  }

  // ---------- what is guaranteed ----------

  // Wherever the loop stops, one file of every selected digest is left alone, if it was there.
  lemma SelectedSurvives(snapshot: seq<Seen>, selected: set<nat>, files: map<string, OnDisk>, w: World, reached: nat, d: nat)
    requires DistinctNames(snapshot) && selected <= Digests(snapshot) && d in selected
    requires reached <= |Redundant(snapshot, selected, |snapshot|)|
    ensures var after := files - Names(Removed(files, Redundant(snapshot, selected, |snapshot|), w, reached));
            exists k :: k in snapshot && k.file.digest == d && (k.name in files ==> k.name in after && after[k.name] == files[k.name])
  {
    var n := |snapshot|;
    var redundant := Redundant(snapshot, selected, n);
    KeptCovers(snapshot, selected, n);
    assert snapshot[..n] == snapshot;
    var kept := Kept(snapshot, selected, n);
    assert d in Digests(kept);
    var i :| 0 <= i < |kept| && kept[i].file.digest == d;
    var k := kept[i];
    MemberOf(snapshot, selected, n, k);
    var removed := Removed(files, redundant, w, reached);
    RemovedAmong(files, redundant, w, reached);
    forall j | 0 <= j < |removed|
      ensures removed[j].name != k.name
    {
      assert removed[j] in redundant[..reached];
      SidesDiffer(snapshot, selected, n, k, removed[j]);
    }
    assert k.name !in Names(removed);
  }

  lemma {:induction false} DirectoryHas(s: seq<Seen>, i: nat)
    requires DistinctNames(s) && i < |s|
    ensures s[i].name in Directory(s) && Directory(s)[s[i].name] == s[i].file
  {
    if i < |s| - 1 {
      DirectoryHas(s[..|s| - 1], i);
    }
  }

  // With the corpus unchanged, every redundant file can be removed.
  lemma {:induction false} AllRemoved(snapshot: seq<Seen>, selected: set<nat>, w: World, n: nat)
    requires DistinctNames(snapshot) && n <= |Redundant(snapshot, selected, |snapshot|)| && forall i :: !w.fails(i)
    ensures var redundant := Redundant(snapshot, selected, |snapshot|);
            Removed(Directory(snapshot), redundant, w, n) == redundant[..n]
  {
    var redundant := Redundant(snapshot, selected, |snapshot|);
    if n > 0 {
      AllRemoved(snapshot, selected, w, n - 1);
      var r := redundant[n - 1];
      assert redundant[..n] == redundant[..n - 1] + [r];
      MemberOf(snapshot, selected, |snapshot|, r);
      assert snapshot[..|snapshot|] == snapshot;
      var i :| 0 <= i < |snapshot| && snapshot[i] == r;
      DirectoryHas(snapshot, i);
    }
  }

  lemma DropBefore(a: map<string, OnDisk>, names: set<string>, name: string, file: OnDisk)
    requires name !in names
    ensures (a - names)[name := file] == a[name := file] - names
  {
  }

  lemma DropAfter(a: map<string, OnDisk>, names: set<string>, name: string, file: OnDisk)
    requires name !in a
    ensures a[name := file] - (names + {name}) == a - names
  {
  }

  lemma DirectoryAppend(s: seq<Seen>, f: Seen)
    requires DistinctNames(s + [f])
    ensures DistinctNames(s) && Directory(s + [f]) == Directory(s)[f.name := f.file]
  {
    var t := s + [f];
    assert t[..|s|] == s;
    assert forall i :: 0 <= i < |s| ==> t[i] == s[i];
  }

  // Taking the redundant files out of the snapshot's directory leaves the kept ones.
  lemma {:induction false} DirectoryOfKept(s: seq<Seen>, selected: set<nat>, n: nat)
    requires n <= |s| && DistinctNames(s)
    ensures DistinctNames(s[..n]) && DistinctNames(Kept(s, selected, n))
    ensures Directory(Kept(s, selected, n)) == Directory(s[..n]) - Names(Redundant(s, selected, n))
  {
    RedundantDistinct(s, selected, n);
    if n > 0 {
      DirectoryOfKept(s, selected, n - 1);
      var last, kept, redundant := s[n - 1], Kept(s, selected, n - 1), Redundant(s, selected, n - 1);
      var before := Directory(s[..n - 1]);
      assert s[..n] == s[..n - 1] + [last];
      DirectoryAppend(s[..n - 1], last);
      FreshName(s, selected, n - 1);
      if Keeps(s, selected, n - 1) {
        assert Redundant(s, selected, n) == redundant;
        DirectoryAppend(kept, last);
        DropBefore(before, Names(redundant), last.name, last.file);
      } else {
        assert Kept(s, selected, n) == kept;
        NamesAppend(redundant, last);
        DropAfter(before, Names(redundant), last.name, last.file);
      }
    }
  }

  lemma FreshName(s: seq<Seen>, selected: set<nat>, n: nat)
    requires n < |s| && DistinctNames(s)
    ensures DistinctNames(s[..n]) && s[n].name !in Directory(s[..n]) && s[n].name !in Names(Redundant(s, selected, n))
  {
    DirectoryNames(s[..n]);
    var redundant := Redundant(s, selected, n);
    forall i | 0 <= i < |redundant|
      ensures redundant[i].name != s[n].name
    {
      MemberOf(s, selected, n, redundant[i]);
    }
  }

  lemma {:induction false} DirectoryNames(s: seq<Seen>)
    requires DistinctNames(s)
    ensures Directory(s).Keys == Names(s)
  {
    if s != [] {
      DirectoryNames(s[..|s| - 1]);
      NamesAppend(s[..|s| - 1], s[|s| - 1]);
      assert s == s[..|s| - 1] + [s[|s| - 1]];
    }
  }

  // When the loop completes on an unchanged corpus, what remains carries exactly the selected
  // digests within both limits, and remaining and removed add up to the snapshot.
  lemma CompletedExactly(snapshot: seq<Seen>, selected: set<nat>, w: World, maxFiles: nat, maxBytes: nat)
    requires DistinctNames(snapshot) && selected <= Digests(snapshot) && forall i :: !w.fails(i)
    requires |Kept(snapshot, selected, |snapshot|)| <= maxFiles && Bytes(Kept(snapshot, selected, |snapshot|)) <= maxBytes
    ensures var n, kept := |snapshot|, Kept(snapshot, selected, |snapshot|);
            var redundant := Redundant(snapshot, selected, n);
            var removed := Removed(Directory(snapshot), redundant, w, |redundant|);
            && DistinctNames(kept) && Directory(snapshot) - Names(removed) == Directory(kept)
            && Digests(kept) == selected && |kept| == |selected| <= maxFiles && Bytes(kept) <= maxBytes
            && |kept| + |removed| == n && Bytes(kept) + Bytes(removed) == Bytes(snapshot)
  {
    var n := |snapshot|;
    assert snapshot[..n] == snapshot;
    var redundant := Redundant(snapshot, selected, n);
    AllRemoved(snapshot, selected, w, |redundant|);
    assert redundant[..|redundant|] == redundant;
    PartitionIsWhole(snapshot, selected);
    KeptCovers(snapshot, selected, n);
    DirectoryOfKept(snapshot, selected, n);
  }
}
