/**
 Publication of workflow templates on a file store whose operations may fail before or after taking effect. A file is named
 by template id and version; both are free of the separator, so the pair is the name.
 */
module WorkflowRegistry {
  import opened Names
  import opened Wrappers

  datatype Status = Active | Retired

  datatype Template = Template(
    id: string, version: string, body: string, status: Status, hash: string, publishedAt: Option<int>, retiredAt: Option<int>)

  type FileName = (string, string)

  type Files = map<FileName, Template>

  datatype Fault = Fine | FailsBefore | FailsAfter

  function NameOf(t: Template): FileName { (t.id, t.version) }

  predicate TokenChar(c: char) {
    'a' <= c <= 'z' || 'A' <= c <= 'Z' || '0' <= c <= '9' || c == '.' || c == '-' || c == '_'
  }

  predicate ValidToken(s: string) { Trim(s) != "" && forall i :: 0 <= i < |s| ==> TokenChar(s[i]) }

  /** hash: the content hash. valid: the checks of title, steps and conditions, beside those of id and version. */
  datatype Setup = Setup(hash: Template -> string, valid: Template -> bool)
  {
    function Retire(t: Template, at: int): Template {
      var r := t.(status := Retired, retiredAt := Some(at));
      r.(hash := hash(r))
    }

    function Fresh(t: Template, at: int): Template {
      var r := t.(status := Active, hash := "", publishedAt := Some(at), retiredAt := None);
      r.(hash := hash(r))
    }

    /** Life-cycle data are ignored before validation. */
    function Bare(t: Template): Template { t.(status := Active, hash := "", publishedAt := None, retiredAt := None) }

    predicate Acceptable(t: Template) { ValidToken(t.id) && ValidToken(t.version) && valid(t) }

    /** What a publication retires. */
    predicate Replaced(t: Template, id: string, except: string) { t.id == id && t.version != except && t.status.Active? }

    function RetireOthers(files: Files, id: string, except: string, at: int): Files {
      map k | k in files :: if Replaced(files[k], id, except) then Retire(files[k], at) else files[k]
    }

    function Published(files: Files, t: Template, at: int): Files { RetireOthers(files, t.id, t.version, at)[NameOf(t) := t] }
  }

  /** Every file holds the template its name says. */
  predicate Canonical(files: Files) { forall k :: k in files ==> NameOf(files[k]) == k }

  /** At most one version of each id is active. */
  predicate OneActive(files: Files) {
    forall k, l :: k in files && l in files && files[k].status.Active? && files[l].status.Active? && k.0 == l.0 ==> k == l
  }

  /** Main result: after a publication the new version is the only active one of its id; every other file keeps all but its retirement. */
  lemma OnlyNewVersionActive(setup: Setup, files: Files, t: Template, at: int, k: FileName)
    requires Canonical(files) && NameOf(t) !in files && t.status.Active?
    ensures var after := setup.Published(files, t, at);
      Canonical(after) && after.Keys == files.Keys + {NameOf(t)} && after[NameOf(t)] == t &&
      (k in after && k.0 == t.id ==> (after[k].status.Active? <==> k == NameOf(t))) &&
      (k in files && (k.0 != t.id || files[k].status.Retired?) ==> after[k] == files[k]) &&
      (k in files && k.0 == t.id && files[k].status.Active? ==>
        after[k] == files[k].(status := Retired, retiredAt := Some(at), hash := after[k].hash))
  {
    var after := setup.Published(files, t, at);
    forall n | n in after ensures NameOf(after[n]) == n {
      if n in files { assert NameOf(files[n]) == n; }
    }
    if k in files { assert NameOf(files[k]) == k; }
  }

  /** Publishing keeps at most one active version per id. */
  lemma PublishedKeepsOneActive(setup: Setup, files: Files, t: Template, at: int)
    requires Canonical(files) && OneActive(files) && NameOf(t) !in files && t.status.Active?
    ensures OneActive(setup.Published(files, t, at))
  {
    var after := setup.Published(files, t, at);
    forall k, l | k in after && l in after && after[k].status.Active? && after[l].status.Active? && k.0 == l.0 ensures k == l {
      OnlyNewVersionActive(setup, files, t, at, k);
      OnlyNewVersionActive(setup, files, t, at, l);
    }
  }

  // ------------------------------------------------------------------ partial states

  /** Some of the replaced templates carry their retired form, everything else is as before. */
  predicate PartlyRetired(setup: Setup, before: Files, now: Files, id: string, except: string, at: int) {
    now.Keys == before.Keys &&
    forall k :: k in before ==>
      now[k] == before[k] || (setup.Replaced(before[k], id, except) && now[k] == setup.Retire(before[k], at))
  }

  /** Exactly these files carry their retired form. */
  predicate RetiredSoFar(setup: Setup, before: Files, now: Files, done: seq<FileName>, at: int) {
    now.Keys == before.Keys && forall k :: k in before ==> now[k] == if k in done then setup.Retire(before[k], at) else before[k]
  }

  predicate OldOrRetired(setup: Setup, now: Template, before: Template, at: int) {
    now == before || now == setup.Retire(before, at)
  }

  /** Outside the targets nothing changed; each target is as before or retired. */
  predicate Within(setup: Setup, originals: Files, files: Files, targets: seq<FileName>, at: int) {
    files.Keys == originals.Keys &&
    forall k :: k in originals ==> if k in targets then OldOrRetired(setup, files[k], originals[k], at) else files[k] == originals[k]
  }

  lemma WrittenBack(setup: Setup, originals: Files, files: Files, now: Files, targets: seq<FileName>, name: FileName, at: int)
    requires Within(setup, originals, files, targets, at) && name in originals && name in targets
    requires now == files || now == files[name := originals[name]]
    ensures Within(setup, originals, now, targets, at)
  {
  }

  /** What was written back needs no more writing. */
  lemma WrittenOnce(setup: Setup, originals: Files, files: Files, now: Files, left: seq<FileName>, at: int)
    requires left != [] && left[0] in originals && Within(setup, originals, files, left, at)
    requires now == files[left[0] := originals[left[0]]]
    ensures Within(setup, originals, now, left[1..], at)
  {
    forall k | k in originals && k != left[0] ensures k in left[1..] <==> k in left { assert left == [left[0]] + left[1..]; }
  }

  lemma NothingLeft(setup: Setup, originals: Files, files: Files, at: int)
    requires Within(setup, originals, files, [], at)
    ensures files == originals
  {
  }

  lemma OneMore(setup: Setup, before: Files, files: Files, now: Files, done: seq<FileName>, name: FileName, at: int)
    requires RetiredSoFar(setup, before, files, done, at) && name in before && name !in done
    requires now == files || now == files[name := setup.Retire(before[name], at)]
    ensures Within(setup, before, now, done + [name], at)
    ensures now == files[name := setup.Retire(before[name], at)] ==> RetiredSoFar(setup, before, now, done + [name], at)
  {
  }

  lemma WithinMore(setup: Setup, originals: Files, files: Files, targets: seq<FileName>, more: seq<FileName>, at: int)
    requires Within(setup, originals, files, targets, at) && targets <= more
    ensures Within(setup, originals, files, more, at)
  {
    forall k | k in originals
      ensures if k in more then OldOrRetired(setup, files[k], originals[k], at) else files[k] == originals[k]
    {
    }
  }

  lemma AllRetired(setup: Setup, before: Files, now: Files, done: seq<FileName>, at: int)
    requires RetiredSoFar(setup, before, now, done, at)
    ensures Within(setup, before, now, done, at)
  {
  }

  /** Rewriting replaced templates only leaves a partly retired registry. */
  lemma WithinIsPartly(setup: Setup, before: Files, now: Files, list: seq<FileName>, id: string, except: string, at: int)
    requires Canonical(before) && Within(setup, before, now, list, at) && Lists(setup, before, list, id, except)
    ensures PartlyRetired(setup, before, now, id, except, at) && Canonical(now)
    ensures RetiredSoFar(setup, before, now, list, at) ==> now == setup.RetireOthers(before, id, except, at)
  {
    forall k | k in now ensures NameOf(now[k]) == k { assert NameOf(before[k]) == k; }
    if RetiredSoFar(setup, before, now, list, at) {
      forall k | k in before ensures now[k] == setup.RetireOthers(before, id, except, at)[k] {
        assert k in list <==> k in Targets(setup, before, id, except);
      }
    }
  }

  predicate Distinct(list: seq<FileName>) { forall i, j :: 0 <= i < j < |list| ==> list[i] != list[j] }

  /** The replaced templates, each once. */
  ghost predicate Lists(setup: Setup, files: Files, list: seq<FileName>, id: string, except: string) {
    Distinct(list) && |list| == |Targets(setup, files, id, except)| && forall k :: k in list <==> k in Targets(setup, files, id, except)
  }

  // ------------------------------------------------------------------ faults

  /** Every one of these operations takes effect and reports so. */
  predicate AllFine(fault: nat -> Fault, from: nat, to: nat) {
    forall n: nat :: from <= n < to ==> fault(n).Fine?
  }

  /** No operation after the first faulty one fails before taking effect: whatever is taken back afterwards is taken back. */
  predicate UndoTakesEffect(fault: nat -> Fault, from: nat, to: nat) {
    forall n: nat, m: nat :: from <= n < m < to && !fault(n).Fine? ==> !fault(m).FailsBefore?
  }

  lemma FineSplit(fault: nat -> Fault, from: nat, mid: nat, to: nat)
    requires from <= mid <= to
    ensures AllFine(fault, from, to) <==> AllFine(fault, from, mid) && AllFine(fault, mid, to)
  {
  }

  lemma OneFine(fault: nat -> Fault, n: nat)
    ensures AllFine(fault, n, n + 1) <==> fault(n).Fine?
  {
  }

  lemma StopsShort(fault: nat -> Fault, from: nat, n: nat, to: nat)
    requires from <= n < to && !fault(n).Fine?
    ensures !AllFine(fault, from, to)
  {
  }

  lemma UndoLater(fault: nat -> Fault, from: nat, mid: nat, to: nat)
    requires UndoTakesEffect(fault, from, to) && from <= mid <= to
    ensures UndoTakesEffect(fault, mid, to) && UndoTakesEffect(fault, from, mid)
  {
  }

  /** How many operations a listing takes: the directory, then each file. */
  function ListingCost(files: Files): nat { 1 + |files| }

  lemma ReadOne(files: Files, names: set<FileName>, name: FileName)
    requires name in names && name in files
    ensures files - (names - {name}) == (files - names)[name := files[name]]
  {
  }

  function Targets(setup: Setup, files: Files, id: string, except: string): set<FileName> {
    set k | k in files && setup.Replaced(files[k], id, except)
  }

  function RetireCost(setup: Setup, files: Files, id: string, except: string): nat {
    ListingCost(files) + |Targets(setup, files, id, except)|
  }

  /** The operations of a publication that goes through: the new file, the listing that includes it, the retirements. */
  function PublishCost(setup: Setup, files: Files, t: Template): nat {
    1 + RetireCost(setup, files[NameOf(t) := t], t.id, t.version)
  }

  datatype Outcome = Success | Refused | WriteFailed | RetireFailed

  class Registry {
    const setup: Setup
    /** The fault of the n-th file operation. */
    const fault: nat -> Fault
    var files: Files
    var operations: nat

    constructor (setup: Setup, fault: nat -> Fault, files: Files)
      ensures this.setup == setup && this.fault == fault && this.files == files && operations == 0
    {
      this.setup, this.fault, this.files, operations := setup, fault, files, 0;
    }

    /** A write goes to a temporary file that is renamed: it takes effect whole or not at all. */
    method Write(name: FileName, t: Template) returns (ok: bool)
      modifies this
      ensures operations == old(operations) + 1 && (ok <==> fault(old(operations)).Fine?)
      ensures files == if fault(old(operations)).FailsBefore? then old(files) else old(files)[name := t]
    {
      var f := fault(operations);
      operations := operations + 1;
      if !f.FailsBefore? { files := files[name := t]; }
      ok := f.Fine?;
    }

    /** Removing a missing file is no failure. */
    method Remove(name: FileName) returns (ok: bool)
      modifies this
      ensures operations == old(operations) + 1 && (ok <==> fault(old(operations)).Fine?)
      ensures files == if fault(old(operations)).FailsBefore? then old(files) else old(files) - {name}
    {
      var f := fault(operations);
      operations := operations + 1;
      if !f.FailsBefore? { files := files - {name}; }
      ok := f.Fine?;
    }

    /** An operation that changes no template: making the directory, asking for a file, opening one. */
    method Touch() returns (ok: bool)
      modifies this`operations
      ensures operations == old(operations) + 1 && (ok <==> fault(old(operations)).Fine?)
    {
      ok := fault(operations).Fine?;
      operations := operations + 1;
    }

    /** Lists the directory and reads every file, up to the first failure. */
    method ReadAll() returns (found: Option<Files>)
      modifies this`operations
      ensures old(operations) < operations <= old(operations) + ListingCost(files)
      ensures found.Some? <==> AllFine(fault, old(operations), old(operations) + ListingCost(files))
      ensures found.Some? ==> found.value == files && operations == old(operations) + ListingCost(files)
      ensures found.None? ==> !fault(operations - 1).Fine? && AllFine(fault, old(operations), operations - 1)
    {
      var names := files.Keys;
      var seen: Files := map[];
      var ok := Touch();
      OneFine(fault, old(operations));
      if !ok { return None; }
      while names != {}
        invariant names <= files.Keys && seen == files - names
        invariant operations + |names| == old(operations) + ListingCost(files)
        invariant operations > old(operations) && AllFine(fault, old(operations), operations)
        decreases |names|
      {
        var name :| name in names;
        ok := Touch();
        FineSplit(fault, old(operations), operations - 1, operations);
        OneFine(fault, operations - 1);
        if !ok {
          StopsShort(fault, old(operations), operations - 1, old(operations) + ListingCost(files));
          return None;
        }
        ReadOne(files, names, name);
        seen := seen[name := files[name]];
        names := names - {name};
      }
      return Some(seen);
    }

    /**
     Retires every other active version of an id: exactly when no operation fails. A failed write is followed by writing back the
     versions rewritten so far and the one that failed; when these writes take effect nothing has changed.
     */
    method RetireActive(id: string, except: string, at: int) returns (ok: bool)
      requires Canonical(files)
      modifies this
      ensures old(operations) < operations
      ensures ok <==> AllFine(fault, old(operations), old(operations) + RetireCost(setup, old(files), id, except))
      ensures ok ==> operations == old(operations) + RetireCost(setup, old(files), id, except)
      ensures ok ==> files == setup.RetireOthers(old(files), id, except, at)
      ensures !ok ==> Undone(old(operations), old(files))
      ensures Canonical(files) && PartlyRetired(setup, old(files), files, id, except, at)
    {
      ghost var start, cost := operations, ListingCost(files);
      FineSplit(fault, start, start + cost, start + RetireCost(setup, files, id, except));
      var listed := ReadAll();
      if listed.None? { return false; }
      ghost var mid := operations;
      var list := ActiveOthers(listed.value, id, except);
      ok := RetireEach(listed.value, list, at);
      WithinIsPartly(setup, listed.value, files, list, id, except, at);
      if UndoTakesEffect(fault, start, operations) { UndoLater(fault, start, mid, operations); }
    }

    /** Picks what is to be retired, in any order. */
    method ActiveOthers(originals: Files, id: string, except: string) returns (list: seq<FileName>)
      ensures Lists(setup, originals, list, id, except)
    {
      list := [];
      var todo := Targets(setup, originals, id, except);
      while todo != {}
        invariant todo <= Targets(setup, originals, id, except) && Distinct(list)
        invariant |list| + |todo| == |Targets(setup, originals, id, except)|
        invariant forall k :: k in list <==> k in Targets(setup, originals, id, except) && k !in todo
        decreases |todo|
      {
        var name :| name in todo;
        list := list + [name];
        todo := todo - {name};
      }
    }

    method RetireEach(originals: Files, list: seq<FileName>, at: int) returns (ok: bool)
      requires files == originals && Distinct(list) && forall k :: k in list ==> k in originals
      modifies this
      ensures old(operations) <= operations
      ensures ok <==> AllFine(fault, old(operations), old(operations) + |list|)
      ensures ok ==> operations == old(operations) + |list| && RetiredSoFar(setup, originals, files, list, at)
      ensures !ok ==> Undone(old(operations), originals)
      ensures Within(setup, originals, files, list, at)
    {
      ghost var start := operations;
      for i := 0 to |list|
        invariant operations == start + i && AllFine(fault, start, operations)
        invariant RetiredSoFar(setup, originals, files, list[..i], at)
      {
        ghost var before := files;
        assert list[i] in list && list[i] !in list[..i];
        var written := Write(list[i], setup.Retire(originals[list[i]], at));
        OneMore(setup, originals, before, files, list[..i], list[i], at);
        assert list[..i] + [list[i]] == list[..i + 1];
        if !written {
          GiveUp(originals, list, i + 1, at, start);
          return false;
        }
      }
      assert list[..|list|] == list;
      AllRetired(setup, originals, files, list, at);
      return true;
    }

    /** Something failed since then, and the files are as they were if what was taken back took effect. */
    predicate Undone(from: nat, before: Files)
      reads this
    {
      !AllFine(fault, from, operations) && (UndoTakesEffect(fault, from, operations) ==> files == before)
    }

    /** The write before this one failed: everything written so far is written back. */
    method GiveUp(originals: Files, list: seq<FileName>, n: nat, at: int, ghost start: nat)
      requires n <= |list| && (forall k :: k in list ==> k in originals) && Within(setup, originals, files, list[..n], at)
      requires start < operations <= start + |list| && !fault(operations - 1).Fine?
      modifies this
      ensures old(operations) <= operations
      ensures Within(setup, originals, files, list, at)
      ensures Undone(start, originals) && !AllFine(fault, start, start + |list|)
    {
      ghost var mid := operations;
      StopsShort(fault, start, mid - 1, start + |list|);
      RollBack(originals, list[..n], at);
      RollBackUndoes(fault, start, mid - 1, mid, operations);
      WithinMore(setup, originals, files, list[..n], list, at);
    }

    /** Writes the originals back, all of them whatever happens on the way. */
    method RollBack(originals: Files, list: seq<FileName>, at: int)
      requires (forall k :: k in list ==> k in originals) && Within(setup, originals, files, list, at)
      modifies this
      ensures operations == old(operations) + |list|
      ensures Within(setup, originals, files, list, at)
      ensures NoneBefore(fault, old(operations), operations) ==> files == originals
    {
      for i := 0 to |list|
        invariant operations == old(operations) + i
        invariant Within(setup, originals, files, list, at)
        invariant NoneBefore(fault, old(operations), operations) ==> Within(setup, originals, files, list[i..], at)
      {
        ghost var before := files;
        assert list[i] in list && list[i..][0] == list[i] && list[i..][1..] == list[i + 1..];
        var _ := Write(list[i], originals[list[i]]);
        WrittenBack(setup, originals, before, files, list, list[i], at);
        if NoneBefore(fault, old(operations), operations) { WrittenOnce(setup, originals, before, files, list[i..], at); }
      }
      if NoneBefore(fault, old(operations), operations) { NothingLeft(setup, originals, files, at); }
    }

    /**
     Writes the new version, then retires the others; a failure takes the new version away again. It succeeds exactly when none of
     its operations fails. After a failure the registry is exactly as it was, provided what is taken back takes effect; in any case
     every old file holds its old or its retired form and the new name holds the new version or nothing.
     */
    method Publish(t: Template, at: int) returns (outcome: Outcome)
      requires Canonical(files) && NameOf(t) !in files && t.status.Active?
      modifies this
      ensures outcome.Success? <==> AllFine(fault, old(operations), old(operations) + PublishCost(setup, old(files), t))
      ensures outcome.WriteFailed? <==> !AllFine(fault, old(operations), old(operations) + 1)
      ensures !outcome.Refused? && old(operations) < operations
      ensures outcome.Success? ==>
        files == setup.Published(old(files), t, at) && operations == old(operations) + PublishCost(setup, old(files), t)
      ensures !outcome.Success? ==> Undone(old(operations), old(files))
      ensures Canonical(files) && Rest(setup, old(files), files, t, at)
    {
      var name := NameOf(t);
      ghost var (before, start, cost) := (files, operations, PublishCost(setup, files, t));
      FineSplit(fault, start, start + 1, start + cost);
      OneFine(fault, start);
      var written := Write(name, t);
      if !written {
        DropNew(t, at, before);
        return WriteFailed;
      }
      ghost var with := files;
      assert with == before[name := t];
      var retired := RetireActive(t.id, t.version, at);
      RetiredRest(setup, before, with, files, t, at);
      if retired {
        PublishedIs(setup, before, t, at);
        return Success;
      }
      TakeBack(t, at, before, start);
      return RetireFailed;
    }

    /** The write of the new version failed, before or after it took effect: its file goes. */
    method DropNew(t: Template, at: int, ghost before: Files)
      requires Canonical(before) && NameOf(t) !in before && (files == before || files == before[NameOf(t) := t])
      requires operations > 0 && !fault(operations - 1).Fine?
      modifies this
      ensures operations == old(operations) + 1
      ensures Undone(old(operations) - 1, before)
      ensures Canonical(files) && Rest(setup, before, files, t, at)
    {
      ghost var n := operations;
      var _ := Remove(NameOf(t));
      FailedWriteUndone(setup, before, files, t, at);
      assert !AllFine(fault, n - 1, operations);
      assert UndoTakesEffect(fault, n - 1, operations) ==> !fault(n).FailsBefore?;
    }

    /** The retirement failed: the new version goes again. */
    method TakeBack(t: Template, at: int, ghost before: Files, ghost start: nat)
      requires NameOf(t) !in before && Canonical(files) && Rest(setup, before, files, t, at)
      requires start < operations && fault(start).Fine? && Undone(start + 1, before[NameOf(t) := t])
      modifies this
      ensures operations == old(operations) + 1
      ensures Undone(start, before)
      ensures Canonical(files) && Rest(setup, before, files, t, at)
    {
      ghost var (end, after) := (operations, files);
      var _ := Remove(NameOf(t));
      RemovedRest(setup, before, after, files, t, at);
      TakenBack(fault, start, end);
    }

    /**
     The one way a template enters the registry: life-cycle data of the caller are dropped, a published version is immutable. The
     directory is made and the name asked for first.
     */
    method PublishTemplate(input: Template, now: int) returns (outcome: Outcome)
      requires Canonical(files)
      modifies this
      ensures outcome.Refused? <==>
        !AllFine(fault, old(operations), old(operations) + 2) || !setup.Acceptable(setup.Bare(input)) || NameOf(input) in old(files)
      ensures outcome.Success? <==>
        setup.Acceptable(setup.Bare(input)) && NameOf(input) !in old(files) &&
        AllFine(fault, old(operations), old(operations) + 2 + PublishCost(setup, old(files), setup.Fresh(input, now)))
      ensures !outcome.Refused? ==> (outcome.WriteFailed? <==> !AllFine(fault, old(operations) + 2, old(operations) + 3))
      ensures outcome.Success? ==> files == setup.Published(old(files), setup.Fresh(input, now), now)
      ensures outcome.Refused? || NameOf(input) in old(files) ==> files == old(files)
      ensures !outcome.Success? && UndoTakesEffect(fault, old(operations), operations) ==> files == old(files)
      ensures Canonical(files) && Rest(setup, old(files), files, setup.Fresh(input, now), now)
      ensures outcome.Success? || files == old(files) ==> OneActive(old(files)) ==> OneActive(files)
    {
      ghost var start := operations;
      var t := setup.Fresh(input, now);
      FineSplit(fault, start, start + 2, start + 2 + PublishCost(setup, files, t));
      RestAtFirst(setup, files, t, now);
      var admitted := Admit(input);
      if !admitted { return Refused; }
      outcome := Publish(t, now);
      if outcome.Success? {
        if OneActive(old(files)) { PublishedKeepsOneActive(setup, old(files), t, now); }
      } else if UndoTakesEffect(fault, start, operations) {
        UndoLater(fault, start, start + 2, operations);
      }
    }

    /** The directory is there, the template is valid, and its name is free. */
    method Admit(input: Template) returns (admitted: bool)
      modifies this`operations
      ensures admitted <==>
        AllFine(fault, old(operations), old(operations) + 2) && setup.Acceptable(setup.Bare(input)) && NameOf(input) !in files
      ensures admitted ==> operations == old(operations) + 2
    {
      var made := Touch();
      if !made { return false; }
      if !setup.Acceptable(setup.Bare(input)) { return false; }
      var asked := Touch();
      return asked && NameOf(input) !in files;
    }

    /** Retires one active version; which of the outcomes it is depends on the request, the file and three operations alone. */
    method RetireTemplate(id: string, version: string, now: int) returns (outcome: Outcome)
      requires Canonical(files)
      modifies this
      ensures outcome.Refused? <==> !Retirable(old(files), id, version) || !AllFine(fault, old(operations), old(operations) + 2)
      ensures outcome.Success? <==> Retirable(old(files), id, version) && AllFine(fault, old(operations), old(operations) + 3)
      ensures !outcome.WriteFailed?
      ensures files ==
        if outcome.Success? || (outcome.RetireFailed? && fault(old(operations) + 2).FailsAfter?)
        then old(files)[(id, version) := setup.Retire(old(files)[(id, version)], now)] else old(files)
      ensures Canonical(files) && (OneActive(old(files)) ==> OneActive(files))
    {
      FineSplit(fault, operations, operations + 2, operations + 3);
      var found := Open(id, version);
      if found.None? { return Refused; }
      var ok := Write((id, version), setup.Retire(found.value, now));
      RetiredOneActive(setup, old(files), (id, version), now);
      if !ok { return RetireFailed; }
      return Success;
    }

    /** Reads an active version. */
    method Open(id: string, version: string) returns (found: Option<Template>)
      modifies this`operations
      ensures found.Some? <==> Retirable(files, id, version) && AllFine(fault, old(operations), old(operations) + 2)
      ensures found.Some? ==> operations == old(operations) + 2 && found.value == files[(id, version)]
    {
      if !ValidToken(id) || !ValidToken(version) { return None; }
      var made := Touch();
      if !made { return None; }
      var read := Touch();
      if !read || (id, version) !in files { return None; }
      return if files[(id, version)].status.Active? then Some(files[(id, version)]) else None;
    }
  }

  // ------------------------------------------------------------------ what is left after a failure

  /** Every old file holds its old or its retired form; the new name holds the new version or nothing. */
  predicate Rest(setup: Setup, before: Files, now: Files, t: Template, at: int) {
    before.Keys <= now.Keys <= before.Keys + {NameOf(t)} && (NameOf(t) in now && NameOf(t) !in before ==> now[NameOf(t)] == t) &&
    forall k :: k in before ==> now[k] == before[k] || (setup.Replaced(before[k], t.id, t.version) && now[k] == setup.Retire(before[k], at))
  }

  predicate Retirable(files: Files, id: string, version: string) {
    ValidToken(id) && ValidToken(version) && (id, version) in files && files[(id, version)].status.Active?
  }

  predicate NoneBefore(fault: nat -> Fault, from: nat, to: nat) {
    forall n: nat :: from <= n < to ==> !fault(n).FailsBefore?
  }

  lemma RollBackUndoes(fault: nat -> Fault, from: nat, failed: nat, mid: nat, to: nat)
    requires from <= failed < mid <= to && mid == failed + 1 && !fault(failed).Fine?
    ensures UndoTakesEffect(fault, from, to) ==> NoneBefore(fault, mid, to)
  {
  }

  /** The removal ends an undoing that began with an earlier fault. */
  lemma TakenBack(fault: nat -> Fault, start: nat, end: nat)
    requires start < end && !AllFine(fault, start + 1, end)
    ensures !AllFine(fault, start, end + 1)
    ensures UndoTakesEffect(fault, start, end + 1) ==> UndoTakesEffect(fault, start + 1, end) && !fault(end).FailsBefore?
  {
    var n: nat :| start + 1 <= n < end && !fault(n).Fine?;
    if UndoTakesEffect(fault, start, end + 1) { assert start <= n < end < end + 1; }
  }

  /** Retiring one version of a canonical registry keeps it canonical, and at most one version active. */
  lemma RetiredOneActive(setup: Setup, files: Files, name: FileName, at: int)
    requires Canonical(files) && name in files
    ensures var after := files[name := setup.Retire(files[name], at)]; Canonical(after) && (OneActive(files) ==> OneActive(after))
  {
    assert NameOf(files[name]) == name;
  }

  lemma RestAtFirst(setup: Setup, before: Files, t: Template, at: int)
    ensures Rest(setup, before, before, t, at)
  {
  }

  lemma FailedWriteUndone(setup: Setup, before: Files, now: Files, t: Template, at: int)
    requires Canonical(before) && NameOf(t) !in before
    requires now == before || now == before[NameOf(t) := t] || now == before - {NameOf(t)} || now == before[NameOf(t) := t] - {NameOf(t)}
    ensures Canonical(now) && Rest(setup, before, now, t, at)
    ensures NameOf(t) !in now ==> now == before
  {
  }

  lemma RetiredRest(setup: Setup, before: Files, with: Files, now: Files, t: Template, at: int)
    requires NameOf(t) !in before && with == before[NameOf(t) := t] && PartlyRetired(setup, with, now, t.id, t.version, at)
    ensures Rest(setup, before, now, t, at) && NameOf(t) in now
  {
    assert !setup.Replaced(t, t.id, t.version);
    forall k | k in before ensures with[k] == before[k] { }
  }

  lemma RemovedRest(setup: Setup, before: Files, after: Files, now: Files, t: Template, at: int)
    requires NameOf(t) !in before && Canonical(after) && Rest(setup, before, after, t, at)
    requires now == after || now == after - {NameOf(t)}
    ensures Canonical(now) && Rest(setup, before, now, t, at)
    ensures after == before[NameOf(t) := t] && now == after - {NameOf(t)} ==> now == before
  {
  }

  lemma PublishedIs(setup: Setup, before: Files, t: Template, at: int)
    requires NameOf(t) !in before
    ensures setup.RetireOthers(before[NameOf(t) := t], t.id, t.version, at) == setup.Published(before, t, at)
  {
  }
}
