/** Worker definitions: what a worker registers, who is eligible for what, and the identity of work
    (sdk/registry.go, and WorkKey / DedupKey of sdk/work.go and event/event.go). */
module Registry {
  import opened Wrappers
  import opened Events
  import opened Text
  import opened Gates
  import opened Rules

  const DEFINITION_VERSION := 1

  /** The scheduling part of a worker's configuration. */
  datatype Contract = Contract(
    name: string, kinds: seq<string>, needLive: bool, needBinding: bool, observe: bool, filter: Rule, evidence: string)

  datatype Definition = Definition(version: int, contract: Contract)

  /** Config.Definition: the kinds become a sorted list without repetition. */
  function Define(c: Contract): Definition {
    Definition(DEFINITION_VERSION, c.(kinds := SortCompact(c.kinds)))
  }

  /** What the event bus offers this worker, prerequisites aside. */
  predicate Matches(c: Contract, ev: Event) {
    ev.kind in c.kinds && Allowed(c.name, ev.meta) && Match(c.filter, ev)
  }

  predicate Eligible(c: Contract, ev: Event) {
    && Matches(c, ev)
    && (c.needLive ==> Live(ev))
    && (c.needBinding && ev.kind == KIND_FQDN ==> BoundName(ev))
  }

  /** Who is eligible: a kind the tool takes, its rule, the event's gates, and the prerequisites it names;
      nothing else is asked for. */
  lemma EligibleIff(c: Contract, ev: Event)
    ensures Eligible(c, ev) <==>
      && ev.kind in c.kinds && Match(c.filter, ev)
      && ("deny" in ev.meta ==> c.name !in SplitMetaList(ev.meta["deny"]))
      && ("allow" in ev.meta && SplitMetaList(ev.meta["allow"]) != [] ==> c.name in SplitMetaList(ev.meta["allow"]))
      && (c.needLive ==> "alive" in ev.meta && ev.meta["alive"] == "true")
      && (c.needBinding && ev.kind == KIND_FQDN ==>
            ev.target.host != "" && ev.target.name != "" && ev.target.nameRole in {NAME_REQUESTED, NAME_DNS_A, NAME_DNS_AAAA})
  {
    AllowedIsNamed(ev.meta, c.name);
    assert |"true"| == 4;
  }

  // ---------------------------------------------------------------- identity of work

  /** The components digested into a key of the work bucket. */
  datatype WorkKey =
    | Observed(tool: string, eventId: string)
    | Deduped(tool: string, kind: string, value: string, scope: string, host: string, name: string, nameRole: string,
              port: int, proto: string, sni: string, httpHost: string, tls: bool)

  function DedupKey(tool: string, ev: Event): WorkKey {
    var t := ev.target;
    Deduped(tool, ev.kind, ev.value, Scope(ev), t.host, t.name, t.nameRole, t.port, t.proto, t.sni, t.httpHost, ev.tls)
  }

  function KeyOf(tool: string, observe: bool, ev: Event): WorkKey {
    if observe then Observed(tool, ev.id) else DedupKey(tool, ev)
  }

  function WorkKeyOf(c: Contract, ev: Event): WorkKey {
    KeyOf(c.name, c.observe, ev)
  }

  /** Two events are one piece of work for a tool exactly when they agree on the subject: kind, value, scope,
      endpoint, name with its role, TLS and the names sent to it. Two tools never share work. */
  lemma DedupKeyIff(tool: string, a: Event, tool': string, b: Event)
    ensures DedupKey(tool, a) == DedupKey(tool', b) <==>
      && tool == tool' && a.kind == b.kind && a.value == b.value
      && (if "scope" in a.meta then a.meta["scope"] else "") == (if "scope" in b.meta then b.meta["scope"] else "")
      && a.target.host == b.target.host && a.target.port == b.target.port && a.target.proto == b.target.proto
      && a.target.name == b.target.name && a.target.nameRole == b.target.nameRole
      && a.target.sni == b.target.sni && a.target.httpHost == b.target.httpHost && a.tls == b.tls
  {
  }

  /** Observation sinks see every event once; everyone else sees every subject once. */
  lemma WorkKeyIff(c: Contract, a: Event, b: Event)
    ensures WorkKeyOf(c, a) == WorkKeyOf(c, b) <==> if c.observe then a.id == b.id else DedupKey(c.name, a) == DedupKey(c.name, b)
  {
  }

  // ---------------------------------------------------------------- validation

  predicate NameChar(c: char) {
    'a' <= c <= 'z' || 'A' <= c <= 'Z' || '0' <= c <= '9' || c == '_' || c == '-'
  }

  predicate WorkerName(name: string) {
    name != "" && forall i :: 0 <= i < |name| ==> NameChar(name[i])
  }

  predicate KnownKind(kind: string) {
    || kind == KIND_DOMAIN || kind == KIND_FQDN || kind == KIND_NETBLOCK || kind == KIND_IP || kind == KIND_PORT
    || kind == KIND_SERVICE || kind == KIND_URL || kind == KIND_SCREENSHOT || kind == KIND_FINDING
  }

  predicate ValidDefinition(d: Definition) {
    && d.version == DEFINITION_VERSION
    && WorkerName(d.contract.name) && d.contract.kinds != []
    && (forall k :: k in d.contract.kinds ==> KnownKind(k))
    && Valid(d.contract.filter)
  }

  /** The registration as JSON. Its digest is the fingerprint. */
  datatype Sheet = Sheet(version: int, name: string, kinds: seq<string>, needLive: bool, needBinding: bool, observe: bool,
                         filter: Json, evidence: string)

  function Write(d: Definition): Sheet {
    var c := d.contract;
    Sheet(d.version, c.name, c.kinds, c.needLive, c.needBinding, c.observe, Encode(c.filter), c.evidence)
  }

  function Read(s: Sheet): Definition {
    Definition(s.version, Contract(s.name, s.kinds, s.needLive, s.needBinding, s.observe, Decode(s.filter), s.evidence))
  }

  datatype Registration = Registration(sheet: Sheet, fingerprint: Sheet)

  /** The checks Registrations makes on every entry it reads. */
  predicate Readable(r: Registration) {
    ValidDefinition(Read(r.sheet)) && r.fingerprint == Write(Read(r.sheet))
  }

  /** A worker and a reader of its registration agree on every event: what matches, what is eligible,
      and under which key the work is recorded. */
  lemma ReadAgrees(c: Contract, ev: Event)
    requires Valid(c.filter)
    ensures var back := Read(Write(Define(c))).contract;
      && Matches(back, ev) == Matches(c, ev)
      && Eligible(back, ev) == Eligible(c, ev)
      && WorkKeyOf(back, ev) == WorkKeyOf(c, ev)
  {
    RereadMatches(c.filter, 0, ev);
  }

  /** Whatever passes validation is accepted by every later reader. */
  lemma WrittenIsReadable(d: Definition)
    requires ValidDefinition(d)
    ensures Readable(Registration(Write(d), Write(d)))
  {
    RereadValid(d.contract.filter, 0);
    EncodeReread(d.contract.filter);
  }

  lemma DefineStable(c: Contract)
    ensures Define(Define(c).contract) == Define(c)
  {
    SortCompactIdempotent(c.kinds);
  }

  lemma DefineValid(d: Definition)
    requires ValidDefinition(d)
    ensures ValidDefinition(Define(d.contract))
  {
    assert d.contract.kinds[0] in SortCompact(d.contract.kinds);
  }

  /** What a registration must be to be read: the current version, a name of letters, digits, hyphens and
      underscores, kinds that exist, a valid rule, and the fingerprint of just this. */
  lemma ReadableIff(r: Registration)
    ensures Readable(r) <==>
      && r.sheet.version == 1 && r.sheet.name != ""
      && (forall c :: c in r.sheet.name ==> 'a' <= c <= 'z' || 'A' <= c <= 'Z' || '0' <= c <= '9' || c == '-' || c == '_')
      && r.sheet.kinds != []
      && (forall k :: k in r.sheet.kinds ==> k in {"domain", "fqdn", "netblock", "ip", "port", "service", "url", "screenshot", "finding"})
      && Valid(Decode(r.sheet.filter))
      && r.fingerprint == r.sheet.(filter := Encode(Decode(r.sheet.filter)))
  {
    NameIff(r.sheet.name);
    assert Write(Read(r.sheet)) == r.sheet.(filter := Encode(Decode(r.sheet.filter)));
    forall k | k in r.sheet.kinds ensures KnownKind(k) <==> k in {"domain", "fqdn", "netblock", "ip", "port", "service", "url", "screenshot", "finding"} {}
  }

  lemma NameIff(name: string)
    ensures WorkerName(name) <==> name != "" && forall c :: c in name ==> 'a' <= c <= 'z' || 'A' <= c <= 'Z' || '0' <= c <= '9' || c == '-' || c == '_'
  {
    forall i | 0 <= i < |name| ensures name[i] in name {}
  }

  /** Replicas that list the same kinds, in any order, register the same contract. */
  lemma DefineOrder(c: Contract, kinds: seq<string>)
    requires forall k :: k in kinds <==> k in c.kinds
    ensures Define(c.(kinds := kinds)) == Define(c)
    ensures forall k :: k in Define(c).contract.kinds <==> k in c.kinds
  {
    AscendingUnique(SortCompact(kinds), SortCompact(c.kinds));
  }

  // ---------------------------------------------------------------- the registry bucket

  datatype Inventory = Inventory(version: int, ready: bool, workers: seq<string>)

  datatype Entry = Entry(registration: Registration, rev: nat)

  /** The bucket: worker entries, the inventory entry, and the last revision. */
  datatype Shelf = Shelf(workers: map<string, Entry>, inventory: Option<Inventory>, last: nat)

  /** Every entry can be read, and is filed under its own name. */
  predicate Orderly(shelf: Shelf) {
    forall n :: n in shelf.workers ==>
      Readable(shelf.workers[n].registration) && shelf.workers[n].registration.sheet.name == n
  }

  /** What other provisioning may do to the bucket in the meantime: entries are added and replaced at later
      revisions, never removed. */
  ghost predicate Drifted(shelf: Shelf, later: Shelf) {
    && Orderly(later) && shelf.last <= later.last
    && forall n :: n in shelf.workers ==>
         n in later.workers && (later.workers[n].rev == shelf.workers[n].rev ==> later.workers[n] == shelf.workers[n])
  }

  function Filing(shelf: Shelf, name: string, r: Registration): Shelf {
    shelf.(workers := shelf.workers[name := Entry(r, shelf.last + 1)], last := shelf.last + 1)
  }

  class Bucket {
    var shelf: Shelf

    ghost predicate Filed()
      reads this
    {
      Orderly(shelf)
    }

    constructor ()
      ensures Filed() && shelf == Shelf(map[], None, 0)
    {
      shelf := Shelf(map[], None, 0);
    }

    /** Registering is idempotent for replicas with the same contract. A different contract under a
        registered name is an error unless it is an explicit replacement, and that overwrites nothing but
        the entry it was compared with. `atGet` and `atUpdate` are the bucket at the second and the third
        request. */
    method Register(d: Definition, replace: bool, atGet: Shelf, atUpdate: Shelf) returns (r: Result<Registration>)
      requires Filed() && Drifted(shelf, atGet) && Drifted(atGet, atUpdate)
      modifies this
      ensures Filed()
      ensures var sheet := Write(Define(d.contract)); var name := d.contract.name; var before := old(shelf);
        if !ValidDefinition(d) then r.Err? && shelf == before
        else if name !in before.workers then r == Ok(Registration(sheet, sheet)) && shelf == Filing(before, name, r.value)
        else if atGet.workers[name].registration.fingerprint == sheet then r == Ok(atGet.workers[name].registration) && shelf == atGet
        else if !replace then r.Err? && shelf == atGet
        else if atUpdate.workers[name] == atGet.workers[name] then r == Ok(Registration(sheet, sheet)) && shelf == Filing(atUpdate, name, r.value)
        else r.Err? && shelf == atUpdate
    {
      if !ValidDefinition(d) {
        return Err("invalid definition");
      }
      DefineValid(d);
      WrittenIsReadable(Define(d.contract));
      var sheet := Write(Define(d.contract));
      var name := d.contract.name;
      var mine := Registration(sheet, sheet);
      if name !in shelf.workers {
        shelf := Filing(shelf, name, mine);
        return Ok(mine);
      }
      shelf := atGet;
      r := Compare(name, mine, replace, atUpdate);
    }

    /** The name is taken: by the same contract, or by another one that may be replaced. */
    method Compare(name: string, mine: Registration, replace: bool, atUpdate: Shelf) returns (r: Result<Registration>)
      requires Filed() && Drifted(shelf, atUpdate) && name in shelf.workers && Readable(mine) && mine.sheet.name == name
      modifies this
      ensures Filed()
      ensures var before := old(shelf);
        if before.workers[name].registration.fingerprint == mine.fingerprint then
          r == Ok(before.workers[name].registration) && shelf == before
        else if !replace then r.Err? && shelf == before
        else if atUpdate.workers[name] == before.workers[name] then r == Ok(mine) && shelf == Filing(atUpdate, name, mine)
        else r.Err? && shelf == atUpdate
    {
      var entry := shelf.workers[name];
      if entry.registration.fingerprint == mine.fingerprint {
        return Ok(entry.registration);
      }
      if !replace {
        return Err("registration differs");
      }
      shelf := atUpdate;
      if shelf.workers[name].rev != entry.rev {
        return Err("wrong last sequence");
      }
      shelf := Filing(shelf, name, mine);
      r := Ok(mine);
    }

    method SetInventory(names: seq<string>, ready: bool) returns (ok: bool)
      requires Filed()
      modifies this
      ensures Filed()
      ensures ok <==> (forall n :: n in names ==> WorkerName(n)) && (ready ==> names != [])
      ensures shelf == if ok
                       then old(shelf).(inventory := Some(Inventory(DEFINITION_VERSION, ready, SortCompact(names))), last := old(shelf).last + 1)
                       else old(shelf)
    {
      var i := 0;
      while i < |names|
        invariant 0 <= i <= |names| && forall j :: 0 <= j < i ==> WorkerName(names[j])
      {
        if !WorkerName(names[i]) {
          return false;
        }
        i := i + 1;
      }
      var sorted := SortCompact(names);
      assert names != [] ==> names[0] in sorted;
      if ready && |sorted| == 0 {
        return false;
      }
      shelf := shelf.(inventory := Some(Inventory(DEFINITION_VERSION, ready, sorted)), last := shelf.last + 1);
      ok := true;
    }
  }

  /** The names on the shelf, in order, if every entry can be read. */
  method SortedNames(shelf: Shelf) returns (r: Option<seq<string>>)
    ensures r.Some? <==> forall n :: n in shelf.workers ==> Readable(shelf.workers[n].registration)
    ensures r.Some? ==> Ascending(r.value) && forall n :: n in r.value <==> n in shelf.workers
  {
    var names: seq<string> := [];
    var rest := shelf.workers.Keys;
    while rest != {}
      invariant rest <= shelf.workers.Keys && Ascending(names)
      invariant forall n :: n in names <==> n in shelf.workers && n !in rest
      invariant forall n :: n in names ==> Readable(shelf.workers[n].registration)
      decreases rest
    {
      var n :| n in rest;
      rest := rest - {n};
      if !Readable(shelf.workers[n].registration) {
        return None;
      }
      names := Insert(n, names);
    }
    r := Some(names);
  }

  function ReadEntry(shelf: Shelf, n: string): Contract
    requires n in shelf.workers
  {
    Read(shelf.workers[n].registration.sheet).contract
  }

  function ReadAll(shelf: Shelf, names: seq<string>): (tools: seq<Contract>)
    requires forall n :: n in names ==> n in shelf.workers
    ensures |tools| == |names| && forall i :: 0 <= i < |names| ==> tools[i] == ReadEntry(shelf, names[i])
  {
    seq(|names|, i requires 0 <= i < |names| => assert names[i] in names; ReadEntry(shelf, names[i]))
  }

  /** Registrations: every worker's contract, in name order; one unreadable entry fails the read. */
  method Registrations(shelf: Shelf) returns (r: Option<seq<Contract>>)
    ensures r.Some? <==> forall n :: n in shelf.workers ==> Readable(shelf.workers[n].registration)
    ensures r.Some? ==> exists names: seq<string> ::
      && Ascending(names) && (forall n :: n in names <==> n in shelf.workers) && r.value == ReadAll(shelf, names)
  {
    var names := SortedNames(shelf);
    r := if names.Some? then Some(ReadAll(shelf, names.value)) else None;
  }
}
