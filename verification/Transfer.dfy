/** Saving a received file under a fresh name (grid/transfer.rs). */
module Transfer {
  import opened Prelude
  import opened Decimal
  import Metrics

  // ----- file names as std::path takes them apart -----

  /** The components of a path that name something, oldest first. */
  function Components(path: string): seq<string>
    decreases |path|
  {
    var head := UpToSlash(path);
    var rest := if |head| < |path| then Components(path[|head| + 1..]) else [];
    (if head == "" || head == "." then [] else [head]) + rest
  }

  function UpToSlash(path: string): (head: string)
    ensures |head| <= |path|
  {
    if path == [] || path[0] == '/' then [] else [path[0]] + UpToSlash(path[1..])
  }

  function FileName(path: string): Option<string> {
    var cs := Components(path);
    if cs == [] || cs[|cs| - 1] == ".." then None else Some(cs[|cs| - 1])
  }

  predicate Plain(name: string) { '/' !in name && name != "" && name != "." && name != ".." }

  lemma {:induction false} UpToFirstSlash(head: string, rest: string)
    requires '/' !in head
    ensures UpToSlash(head) == head && UpToSlash(head + "/" + rest) == head
  {
    if head == "" {
    } else {
      assert head[0] in head && (head + "/" + rest)[1..] == head[1..] + "/" + rest;
      UpToFirstSlash(head[1..], rest);
    }
  }

  lemma {:induction false} LastComponent(dir: string, name: string)
    requires Plain(name)
    ensures Components(dir + "/" + name) == Components(dir) + [name]
    decreases |dir|
  {
    var n := |UpToSlash(dir)|;
    HeadOf(dir, name);
    RestOf(dir, name, n);
    if n == |dir| {
      PlainIsItself(name);
    } else {
      LastComponent(dir[n + 1..], name);
    }
  }

  lemma RestOf(dir: string, name: string, n: nat)
    requires n <= |dir|
    ensures (dir + "/" + name)[n + 1..] == if n == |dir| then name else dir[n + 1..] + "/" + name
  {
  }

  lemma {:induction false} HeadOf(dir: string, name: string)
    ensures UpToSlash(dir + "/" + name) == UpToSlash(dir)
  {
    if dir == "" || dir[0] == '/' {
    } else {
      assert (dir + "/" + name)[1..] == dir[1..] + "/" + name;
      HeadOf(dir[1..], name);
    }
  }

  lemma PlainIsItself(name: string)
    requires Plain(name)
    ensures Components(name) == [name] && FileName(name) == Some(name)
  {
    UpToFirstSlash(name, "");
  }

  /** The file name of a path is what follows its last slash, unless that is nothing or dots. */
  lemma FileNameIsLastComponent(dir: string, name: string)
    requires Plain(name)
    ensures FileName(name) == Some(name) && FileName(dir + "/" + name) == Some(name)
  {
    PlainIsItself(name);
    LastComponent(dir, name);
  }

  /** The position of the last dot, if there is one. */
  function LastDot(name: string): (d: Option<nat>)
    ensures d.Some? ==> d.value < |name| && name[d.value] == '.' && '.' !in name[d.value + 1..]
    ensures d.None? ==> '.' !in name
  {
    if name == [] then None
    else if name[|name| - 1] == '.' then
      assert name[|name|..] == [];
      Some(|name| - 1)
    else
      var d := LastDot(name[..|name| - 1]);
      assert name == name[..|name| - 1] + [name[|name| - 1]];
      assert d.Some? ==> name[d.value + 1..] == name[..|name| - 1][d.value + 1..] + [name[|name| - 1]];
      d
  }

  /** A leading dot does not start an extension. */
  function Stem(filename: string): string {
    match FileName(filename)
    case None => "file"
    case Some(name) =>
      var d := LastDot(name);
      if d.None? || d.value == 0 then name else name[..d.value]
  }

  function Extension(filename: string): string {
    match FileName(filename)
    case None => ""
    case Some(name) =>
      var d := LastDot(name);
      if d.None? || d.value == 0 then "" else name[d.value + 1..]
  }

  /** The name recorded for a saved path: its last component. */
  function ReportedName(path: string): string {
    if FileName(path).Some? then FileName(path).value else path
  }

  function Candidate(filename: string, counter: nat): string {
    if Extension(filename) == "" then Stem(filename) + "_" + Print(counter)
    else Stem(filename) + "_" + Print(counter) + "." + Extension(filename)
  }

  // ----- the search -----

  function Suffix(filename: string): string {
    if Extension(filename) == "" then "" else "." + Extension(filename)
  }

  lemma CandidateShape(filename: string, c: nat)
    ensures Candidate(filename, c) == (Stem(filename) + "_") + Print(c) + Suffix(filename)
  {
  }

  /** Candidates with different counters are different names: decimal printing is injective. */
  lemma CandidatesDiffer(filename: string, a: nat, b: nat)
    requires a != b
    ensures Candidate(filename, a) != Candidate(filename, b)
  {
    CandidateShape(filename, a);
    CandidateShape(filename, b);
    if Candidate(filename, a) == Candidate(filename, b) {
      SameMiddle(Stem(filename) + "_", Print(a), Print(b), Suffix(filename));
      PrintInjective(a, b);
    }
  }

  lemma SameMiddle(prefix: string, x: string, y: string, suffix: string)
    requires prefix + x + suffix == prefix + y + suffix
    ensures x == y
  {
    assert |x| == |y|;
    assert x == (prefix + x + suffix)[|prefix|..|prefix| + |x|];
    assert y == (prefix + y + suffix)[|prefix|..|prefix| + |y|];
  }

  ghost function Probed(filename: string, n: nat): set<string> {
    set c | 1 <= c <= n :: Candidate(filename, c)
  }

  lemma ProbedGrows(filename: string, n: nat)
    requires n > 0
    ensures Probed(filename, n) == Probed(filename, n - 1) + {Candidate(filename, n)}
    ensures Candidate(filename, n) !in Probed(filename, n - 1)
  {
    var next := Candidate(filename, n);
    forall x | x in Probed(filename, n) ensures x in Probed(filename, n - 1) + {next} {
      var c :| 1 <= c <= n && x == Candidate(filename, c);
      assert c == n || x in Probed(filename, n - 1);
    }
    forall c | 1 <= c <= n - 1 ensures Candidate(filename, c) != next {
      CandidatesDiffer(filename, c, n);
    }
  }

  lemma {:induction false} ProbedCount(filename: string, n: nat)
    ensures |Probed(filename, n)| == n
  {
    if n == 0 {
      assert Probed(filename, 0) == {};
    } else {
      ProbedCount(filename, n - 1);
      ProbedGrows(filename, n);
    }
  }

  /** Pigeonhole: the candidates cannot all be taken. */
  lemma TakenCandidatesBounded(filename: string, entries: set<string>, n: nat)
    requires forall c :: 1 <= c <= n ==> Candidate(filename, c) in entries
    ensures n <= |entries|
  {
    ProbedCount(filename, n);
    SubsetCount(Probed(filename, n), entries);
  }

  /** Taking a plain name apart and putting it together again gives the name. */
  lemma StemAndExtension(name: string)
    requires FileName(name) == Some(name)
    ensures name == Stem(name) || (name == Stem(name) + "." + Extension(name) && Stem(name) != "")
  {
    var d := LastDot(name);
    if d.Some? && d.value > 0 {
      assert name == name[..d.value] + [name[d.value]] + name[d.value + 1..];
    }
  }

  lemma {:induction false} LastDotIs(front: string, back: string)
    requires '.' !in back
    ensures LastDot(front + "." + back) == Some(|front|)
  {
    var name := front + "." + back;
    if back == "" {
      assert name == front + ".";
    } else {
      assert name[..|name| - 1] == front + "." + back[..|back| - 1];
      assert name[|name| - 1] == back[|back| - 1] && back[|back| - 1] in back;
      LastDotIs(front, back[..|back| - 1]);
    }
  }

  /** The stem of a plain name with an inner dot ends before the last dot, and what follows the dot is the extension. */
  lemma StemEndsBeforeLastDot(front: string, back: string)
    requires FileName(front + "." + back) == Some(front + "." + back) && front != "" && '.' !in back
    ensures Stem(front + "." + back) == front && Extension(front + "." + back) == back
  {
    LastDotIs(front, back);
    assert (front + "." + back)[..|front|] == front && (front + "." + back)[|front| + 1..] == back;
  }

  /** A plain name with no dot but perhaps a leading one is all stem. */
  lemma StemWithoutInnerDot(name: string)
    requires FileName(name) == Some(name) && name != "" && '.' !in name[1..]
    ensures Stem(name) == name && Extension(name) == ""
  {
    if name[0] == '.' {
      LastDotIs("", name[1..]);
      assert name == "" + "." + name[1..];
    } else {
      assert '.' !in name;
    }
  }

  /** A plain name is none of its own candidates: they are longer. */
  lemma CandidateIsAnotherName(name: string, c: nat)
    requires FileName(name) == Some(name)
    ensures Candidate(name, c) != name
  {
    CandidateShape(name, c);
    StemAndExtension(name);
    assert |Candidate(name, c)| == |Stem(name)| + 1 + |Print(c)| + |Suffix(name)|;
  }

  /** A plain name that is taken takes one of the places itself. */
  lemma TakenCandidatesBesideName(name: string, entries: set<string>, n: nat)
    requires FileName(name) == Some(name) && name in entries
    requires forall c :: 1 <= c <= n ==> Candidate(name, c) in entries
    ensures n <= |entries| - 1
  {
    forall c | 1 <= c <= n ensures Candidate(name, c) in entries - {name} {
      CandidateIsAnotherName(name, c);
    }
    TakenCandidatesBounded(name, entries - {name}, n);
  }

  /** The most calls to `exists` a search can take. */
  function MostProbes(filename: string, entries: set<string>, nameTaken: bool): nat {
    if !nameTaken then 1
    else if FileName(filename) == Some(filename) && filename in entries then |entries| + 1
    else |entries| + 2
  }

  lemma ProbesBounded(filename: string, entries: set<string>, taken: nat)
    requires forall c :: 1 <= c <= taken ==> Candidate(filename, c) in entries
    ensures taken + 2 <= MostProbes(filename, entries, true)
  {
    TakenCandidatesBounded(filename, entries, taken);
    if FileName(filename) == Some(filename) && filename in entries {
      TakenCandidatesBesideName(filename, entries, taken);
    }
  }

  /** The name a file is saved under: its own if that is free, else the first free candidate. */
  ghost predicate IsFreshName(filename: string, entries: set<string>, nameTaken: bool, name: string) {
    if !nameTaken then name == filename
    else exists c :: c >= 1 && name == Candidate(filename, c) && name !in entries
           && forall k :: 1 <= k < c ==> Candidate(filename, k) in entries
  }

  datatype Status = InProgress | Completed

  datatype TransferInfo = TransferInfo(
    id: string, filename: string, peer: PeerId, totalBytes: nat, transferredBytes: nat, status: Status)

  /** What the file system does: refuse the file, take only so many bytes of it, or take it all. */
  datatype Disk = CreateFails | WriteFails(written: nat) | Works

  /** The bytes that end up in the file. */
  function Kept(disk: Disk, data: Bytes): Bytes {
    if disk.WriteFails? && disk.written < |data| then data[..disk.written] else data
  }

  class FileTransfer {
    var entries: set<string>            // names in the download directory
    var contents: map<string, Bytes>    // what this object has written there
    var transfers: map<string, TransferInfo>
    const metrics: Metrics.BandwidthMetrics

    constructor (entries: set<string>, metrics: Metrics.BandwidthMetrics)
      ensures this.entries == entries && contents == map[] && transfers == map[] && this.metrics == metrics
    {
      this.entries, this.contents, this.transfers, this.metrics := entries, map[], map[], metrics;
    }

    /** `nameTaken` is whether the requested path itself exists. `probes` counts the calls that ask whether a path
        exists, the first one included: at most one more than there are entries if the requested name is a plain one
        among them. The search takes the smallest free counter. */
    method FreshName(filename: string, nameTaken: bool) returns (name: string, probes: nat)
      ensures IsFreshName(filename, entries, nameTaken, name)
      ensures 1 <= probes <= MostProbes(filename, entries, nameTaken)
      ensures (nameTaken <==> filename in entries) ==> name !in entries
    {
      name := filename;
      var counter := 1;
      var taken := nameTaken;
      probes := 1;
      while taken
        invariant counter >= 1 && probes == counter && (taken ==> nameTaken)
        invariant forall k :: 1 <= k < counter && (taken || k < counter - 1) ==> Candidate(filename, k) in entries
        invariant !taken && !nameTaken ==> name == filename && probes == 1
        invariant !taken && nameTaken ==>
          counter >= 2 && name == Candidate(filename, counter - 1) && name !in entries
          && probes <= MostProbes(filename, entries, true)
        decreases |entries| + 1 - counter, taken
      {
        TakenCandidatesBounded(filename, entries, counter - 1);
        ProbesBounded(filename, entries, counter - 1);
        var stem := Stem(filename);
        var ext := Extension(filename);
        if ext == "" {
          name := stem + "_" + Print(counter);
        } else {
          name := stem + "_" + Print(counter) + "." + ext;
        }
        counter := counter + 1;
        taken := name in entries;
        probes := probes + 1;
        if taken {
          TakenCandidatesBounded(filename, entries, counter - 1);
        }
      }
    }

    /** The id is the UUID the source would generate. A file that could be created but not written stays behind. */
    method SaveFile(filename: string, nameTaken: bool, data: Bytes, peer: PeerId, disk: Disk, id: string, now: nat)
      returns (r: Result<TransferInfo, string>, savedAs: string)
      modifies this`entries, this`contents, this`transfers, metrics
      ensures IsFreshName(filename, old(entries), nameTaken, savedAs)
      ensures r.Ok? <==> disk.Works?
      ensures disk.CreateFails? ==> entries == old(entries) && contents == old(contents)
      ensures !disk.CreateFails? ==>
        && entries == old(entries) + (if ReportedName(savedAs) == savedAs then {savedAs} else {})
        && contents == old(contents)[savedAs := Kept(disk, data)]
      ensures r.Err? ==> metrics.Value() == old(metrics.Value()) && transfers == old(transfers)
      ensures r.Ok? ==>
        && r.value.id == id && r.value.peer == peer
        && r.value.status == Completed && r.value.filename == ReportedName(savedAs)
        && r.value.transferredBytes == r.value.totalBytes == |data|
        && transfers == old(transfers)[id := r.value]
        && metrics.Value() == Metrics.RecordReceived(old(metrics.Value()), peer, |data|, now)
        && metrics.totalReceived == old(metrics.totalReceived) + |data|
    {
      var probes;
      savedAs, probes := FreshName(filename, nameTaken);
      if disk.CreateFails? {
        r := Err("create failed");
        return;
      }
      if ReportedName(savedAs) == savedAs {
        entries := entries + {savedAs};
      }
      contents := contents[savedAs := Kept(disk, data)];
      if disk.WriteFails? {
        r := Err("write failed");
        return;
      }
      var size := |data|;
      metrics.RecordBytesReceived(peer, size, now);
      var info := TransferInfo(id, ReportedName(savedAs), peer, size, 0, InProgress);
      info := info.(transferredBytes := size);
      info := info.(status := Completed);
      transfers := transfers[id := info];
      r := Ok(info);
    }
  }
}
