/** The serialized input predicate shared by workers and offline coverage (sdk/rule.go). */
module Rules {
  import opened Wrappers
  import opened Events
  import opened Decimal

  /** A Go slice of rules: nil and empty differ in memory, not in JSON. */
  datatype Branches = Nil | Slice(rules: seq<Rule>)

  datatype Rule = Rule(
    all: Branches, any: Branches, negated: Option<Rule>, field: string, values: Option<seq<string>>, present: bool)

  const ZERO := Rule(Nil, Nil, None, "", None, false)

  function All(rules: seq<Rule>): Rule { ZERO.(all := Slice(rules)) }
  function Any(rules: seq<Rule>): Rule { ZERO.(any := Slice(rules)) }
  function Not(rule: Rule): Rule { ZERO.(negated := Some(rule)) }
  function FieldIn(field: string, values: seq<string>): Rule { ZERO.(field := field, values := Some(values)) }
  function Has(field: string): Rule { ZERO.(field := field, present := true) }

  function FormatBool(b: bool): string {
    if b then "true" else "false"
  }

  /** ruleField: `None` for a field no rule may name. */
  function RuleField(ev: Event, field: string): Option<string> {
    if field == "kind" then Some(ev.kind)
    else if field == "source" then Some(ev.source)
    else if field == "value" then Some(ev.value)
    else if field == "host" then Some(ev.target.host)
    else if field == "name" then Some(ev.target.name)
    else if field == "name_role" then Some(ev.target.nameRole)
    else if field == "port" then Some(if ev.target.port == 0 then "" else Itoa(ev.target.port))
    else if field == "proto" then Some(ev.target.proto)
    else if field == "service" then Some(ev.service)
    else if field == "url" then Some(ev.target.url)
    else if field == "sni" then Some(ev.target.sni)
    else if field == "http_host" then Some(ev.target.httpHost)
    else if field == "tls" then Some(FormatBool(ev.tls))
    else if field == "alive" then Some(FormatBool(Live(ev)))
    else None
  }

  predicate MatchField(r: Rule, ev: Event) {
    var value := RuleField(ev, r.field);
    && value.Some?
    && if r.present then value.value != "" else r.values.Some? && value.value in r.values.value
  }

  predicate Match(r: Rule, ev: Event)
    decreases r
  {
    if r.all.Slice? then forall i :: 0 <= i < |r.all.rules| ==> Match(r.all.rules[i], ev)
    else if r.any.Slice? then exists i :: 0 <= i < |r.any.rules| && Match(r.any.rules[i], ev)
    else if r.negated.Some? then !Match(r.negated.value, ev)
    else if r.field != "" then MatchField(r, ev)
    else true
  }

  // ---------------------------------------------------------------- validation

  const MAX_DEPTH := 16
  const MAX_BRANCHES := 64

  function One(b: bool): nat { if b then 1 else 0 }

  function Modes(r: Rule): nat {
    One(r.all.Slice?) + One(r.any.Slice?) + One(r.negated.Some?) + One(r.field != "")
  }

  function Listed(b: Branches): seq<Rule> {
    if b.Slice? then b.rules else []
  }

  function ListedValues(v: Option<seq<string>>): seq<string> {
    if v.Some? then v.value else []
  }

  predicate FieldsValid(r: Rule) {
    if r.field == "" then !r.present && r.values.None?
    else RuleField(BLANK, r.field).Some? && r.present != (ListedValues(r.values) != [])
  }

  const BLANK := Event(0, "", "", "", "", "", "", "", NO_TARGET, None, "", "", false, map[], map[])

  /** The checks on one node of the rule. */
  predicate NodeValid(r: Rule) {
    && Modes(r) <= 1
    && FieldsValid(r)
    && r.all != Slice([]) && r.any != Slice([])
    && |Listed(r.all)| + |Listed(r.any)| <= MAX_BRANCHES
  }

  predicate ValidAt(r: Rule, depth: nat)
    decreases r
  {
    && depth <= MAX_DEPTH
    && NodeValid(r)
    && (r.all.Slice? ==> forall i :: 0 <= i < |r.all.rules| ==> ValidAt(r.all.rules[i], depth + 1))
    && (r.any.Slice? ==> forall i :: 0 <= i < |r.any.rules| ==> ValidAt(r.any.rules[i], depth + 1))
    && (r.negated.Some? ==> ValidAt(r.negated.value, depth + 1))
  }

  predicate Valid(r: Rule) {
    ValidAt(r, 0)
  }

  // ---------------------------------------------------------------- serialization

  /** The JSON object of a rule: `None` and `[]` are keys the encoder left out because they were empty. */
  datatype Json = Json(all: seq<Json>, any: seq<Json>, negated: Option<Json>, field: string, values: seq<string>, present: bool)

  function EncodeList(rules: seq<Rule>): (js: seq<Json>)
    ensures |js| == |rules|
    decreases rules
  {
    if rules == [] then [] else EncodeList(rules[..|rules| - 1]) + [Encode(rules[|rules| - 1])]
  }

  function Encode(r: Rule): Json
    decreases r
  {
    Json(if r.all.Slice? then EncodeList(r.all.rules) else [],
         if r.any.Slice? then EncodeList(r.any.rules) else [],
         if r.negated.Some? then Some(Encode(r.negated.value)) else None,
         r.field, ListedValues(r.values), r.present)
  }

  function DecodeList(js: seq<Json>): (rules: seq<Rule>)
    ensures |js| == |rules|
    decreases js
  {
    if js == [] then [] else DecodeList(js[..|js| - 1]) + [Decode(js[|js| - 1])]
  }

  /** A key that is absent decodes to nil. */
  function Decode(j: Json): Rule
    decreases j
  {
    Rule(if j.all == [] then Nil else Slice(DecodeList(j.all)),
         if j.any == [] then Nil else Slice(DecodeList(j.any)),
         if j.negated.Some? then Some(Decode(j.negated.value)) else None,
         j.field, if j.values == [] then None else Some(j.values), j.present)
  }

  lemma {:induction false} EncodeListAt(rules: seq<Rule>, i: nat)
    requires i < |rules|
    ensures EncodeList(rules)[i] == Encode(rules[i])
    decreases |rules|
  {
    if i < |rules| - 1 { EncodeListAt(rules[..|rules| - 1], i); }
  }

  lemma {:induction false} DecodeListAt(js: seq<Json>, i: nat)
    requires i < |js|
    ensures DecodeList(js)[i] == Decode(js[i])
    decreases |js|
  {
    if i < |js| - 1 { DecodeListAt(js[..|js| - 1], i); }
  }

  /** What readers of the registry evaluate: the rule after a trip through its JSON. */
  function Reread(r: Rule): Rule {
    Decode(Encode(r))
  }

  /** Branch lists that are empty or nil read back as nil; the others element by element. */
  lemma RereadBranches(bs: Branches)
    ensures var js := if bs.Slice? then EncodeList(bs.rules) else [];
      var back := if js == [] then Nil else Slice(DecodeList(js));
      if Listed(bs) == [] then back == Nil
      else back.Slice? && |back.rules| == |bs.rules| && forall i :: 0 <= i < |bs.rules| ==> back.rules[i] == Reread(bs.rules[i])
  {
    if Listed(bs) != [] {
      var js := EncodeList(bs.rules);
      forall i | 0 <= i < |bs.rules| ensures DecodeList(js)[i] == Reread(bs.rules[i]) {
        EncodeListAt(bs.rules, i);
        DecodeListAt(js, i);
      }
    }
  }

  predicate SameBranches(bs: Branches, back: Branches) {
    if Listed(bs) == [] then back == Nil
    else back.Slice? && |back.rules| == |bs.rules| && forall i :: 0 <= i < |bs.rules| ==> back.rules[i] == Reread(bs.rules[i])
  }

  lemma RereadNode(r: Rule)
    ensures SameBranches(r.all, Reread(r).all) && SameBranches(r.any, Reread(r).any)
    ensures Reread(r).negated == if r.negated.Some? then Some(Reread(r.negated.value)) else None
    ensures Reread(r).field == r.field && Reread(r).present == r.present
    ensures ListedValues(Reread(r).values) == ListedValues(r.values)
    ensures r.values.None? ==> Reread(r).values.None?
  {
    RereadBranches(r.all);
    RereadBranches(r.any);
  }

  /** A registered rule means the same to the worker that registered it and to whoever reads it back. */
  lemma {:induction false} RereadMatches(r: Rule, depth: nat, ev: Event)
    requires ValidAt(r, depth)
    ensures Match(Reread(r), ev) == Match(r, ev)
    decreases r
  {
    RereadNode(r);
    if r.all.Slice? {
      forall i | 0 <= i < |r.all.rules| ensures Match(Reread(r).all.rules[i], ev) == Match(r.all.rules[i], ev) {
        RereadMatches(r.all.rules[i], depth + 1, ev);
      }
    } else if r.any.Slice? {
      forall i | 0 <= i < |r.any.rules| ensures Match(Reread(r).any.rules[i], ev) == Match(r.any.rules[i], ev) {
        RereadMatches(r.any.rules[i], depth + 1, ev);
      }
    } else if r.negated.Some? {
      RereadMatches(r.negated.value, depth + 1, ev);
    } else if r.field != "" {
      RereadField(r, Reread(r), ev);
    }
  }

  lemma RereadField(r: Rule, back: Rule, ev: Event)
    requires back.field == r.field && back.present == r.present && ListedValues(back.values) == ListedValues(r.values)
    ensures MatchField(back, ev) == MatchField(r, ev)
  {
  }

  /** A rule that was valid when registered is still valid when read back. */
  lemma {:induction false} RereadValid(r: Rule, depth: nat)
    requires ValidAt(r, depth)
    ensures ValidAt(Reread(r), depth)
    decreases r
  {
    RereadNode(r);
    forall i | 0 <= i < |Listed(r.all)| ensures ValidAt(Reread(r).all.rules[i], depth + 1) {
      RereadValid(r.all.rules[i], depth + 1);
    }
    forall i | 0 <= i < |Listed(r.any)| ensures ValidAt(Reread(r).any.rules[i], depth + 1) {
      RereadValid(r.any.rules[i], depth + 1);
    }
    if r.negated.Some? {
      RereadValid(r.negated.value, depth + 1);
    }
  }

  /** The registry's fingerprint is taken over the JSON, and reading a rule back does not change it. */
  lemma {:induction false} EncodeReread(r: Rule)
    ensures Encode(Reread(r)) == Encode(r)
    decreases r
  {
    RereadNode(r);
    EncodeSame(r.all, Reread(r).all);
    EncodeSame(r.any, Reread(r).any);
    if r.negated.Some? {
      EncodeReread(r.negated.value);
    }
  }

  lemma {:induction false} EncodeSame(bs: Branches, back: Branches)
    requires SameBranches(bs, back)
    ensures EncodeList(Listed(back)) == EncodeList(Listed(bs))
    decreases bs
  {
    var n := |Listed(bs)|;
    forall i | 0 <= i < n ensures EncodeList(back.rules)[i] == EncodeList(bs.rules)[i] {
      EncodeListAt(bs.rules, i);
      EncodeListAt(back.rules, i);
      EncodeReread(bs.rules[i]);
    }
  }

  /** Validation is what makes the trip safe: an unvalidated rule can match nothing before it and
      everything after it. No reader ever receives this one: registration validates every rule, so that
      this shows why it does. */
  lemma UnvalidatedRuleChanges(ev: Event)
    ensures !Valid(Any([]))
    ensures !Match(Any([]), ev) && Match(Reread(Any([])), ev)
  {
  }

  /** validate: count the modes, check the node, then loop over the children. */
  method Validate(r: Rule, depth: nat) returns (ok: bool)
    ensures ok <==> ValidAt(r, depth)
    decreases r
  {
    if depth > MAX_DEPTH {
      return false;
    }
    var modes := 0;
    if r.all.Slice? { modes := modes + 1; }
    if r.any.Slice? { modes := modes + 1; }
    if r.negated.Some? { modes := modes + 1; }
    if r.field != "" { modes := modes + 1; }
    if modes > 1 || !FieldsValid(r) {
      return false;
    }
    var all, any := Listed(r.all), Listed(r.any);
    if (r.all.Slice? && |all| == 0) || (r.any.Slice? && |any| == 0) || |all| + |any| > MAX_BRANCHES {
      return false;
    }
    ok := ValidateAll(all, r, depth);
    if !ok {
      return false;
    }
    ok := ValidateAll(any, r, depth);
    if !ok {
      return false;
    }
    if r.negated.Some? {
      ok := Validate(r.negated.value, depth + 1);
    }
  }

  method ValidateAll(rules: seq<Rule>, ghost parent: Rule, depth: nat) returns (ok: bool)
    requires rules == Listed(parent.all) || rules == Listed(parent.any)
    ensures ok <==> forall i :: 0 <= i < |rules| ==> ValidAt(rules[i], depth + 1)
    decreases parent, 0
  {
    var i := 0;
    while i < |rules|
      invariant 0 <= i <= |rules| && forall j :: 0 <= j < i ==> ValidAt(rules[j], depth + 1)
    {
      ok := Validate(rules[i], depth + 1);
      if !ok {
        return;
      }
      i := i + 1;
    }
    ok := true;
  }

  // ---------------------------------------------------------------- the limits of validation

  function Nested(n: nat): Rule {
    if n == 0 then ZERO else Not(Nested(n - 1))
  }

  lemma {:induction false} NestedAt(n: nat, depth: nat)
    ensures ValidAt(Nested(n), depth) <==> depth + n <= 16
  {
    if n > 0 { NestedAt(n - 1, depth + 1); }
  }

  /** Rules may be nested 16 deep. */
  lemma NestingLimit(n: nat)
    ensures Valid(Nested(n)) <==> n <= 16
  {
    NestedAt(n, 0);
  }

  /** And have one to 64 branches. */
  lemma BranchLimit(rules: seq<Rule>)
    requires forall r :: r in rules ==> r == ZERO
    ensures Valid(All(rules)) <==> 1 <= |rules| <= 64
    ensures Valid(Any(rules)) <==> 1 <= |rules| <= 64
  {
    assert forall i :: 0 <= i < |rules| ==> rules[i] in rules && ValidAt(rules[i], 1);
  }

  /** A rule names one of these fields, and either asks for it to be present or lists its values. */
  lemma FieldLimit(field: string, values: seq<string>)
    ensures Valid(Has(field)) <==>
      field in {"kind", "source", "value", "host", "name", "name_role", "port", "proto", "service", "url", "sni", "http_host", "tls", "alive"}
    ensures Valid(FieldIn(field, values)) <==> Valid(Has(field)) && values != []
    ensures Valid(FieldIn(field, values).(present := true)) <==> Valid(Has(field)) && values == []
  {
  }

  // ---------------------------------------------------------------- what a field stands for

  ghost predicate ComparesWith(field: string, ev: Event, value: string) {
    forall v :: Match(FieldIn(field, [v]), ev) <==> v == value
  }

  lemma FieldCompares(field: string, ev: Event, value: string)
    requires field != "" && RuleField(ev, field) == Some(value)
    ensures ComparesWith(field, ev, value)
  {
  }

  /** The part of the event each field of a rule is compared with. */
  lemma FieldsRead(ev: Event)
    ensures ComparesWith("kind", ev, ev.kind) && ComparesWith("source", ev, ev.source) && ComparesWith("value", ev, ev.value)
    ensures ComparesWith("host", ev, ev.target.host) && ComparesWith("name", ev, ev.target.name) && ComparesWith("name_role", ev, ev.target.nameRole)
    ensures ComparesWith("port", ev, if ev.target.port == 0 then "" else Itoa(ev.target.port)) && ComparesWith("proto", ev, ev.target.proto)
    ensures ComparesWith("service", ev, ev.service) && ComparesWith("url", ev, ev.target.url) && ComparesWith("sni", ev, ev.target.sni)
    ensures ComparesWith("http_host", ev, ev.target.httpHost) && ComparesWith("tls", ev, if ev.tls then "true" else "false")
    ensures ComparesWith("alive", ev, if "alive" in ev.meta && ev.meta["alive"] == "true" then "true" else "false")
  {
    FieldCompares("kind", ev, ev.kind);
    FieldCompares("source", ev, ev.source);
    FieldCompares("value", ev, ev.value);
    FieldCompares("host", ev, ev.target.host);
    FieldCompares("name", ev, ev.target.name);
    FieldCompares("name_role", ev, ev.target.nameRole);
    FieldCompares("port", ev, if ev.target.port == 0 then "" else Itoa(ev.target.port));
    FieldCompares("proto", ev, ev.target.proto);
    FieldCompares("service", ev, ev.service);
    FieldCompares("url", ev, ev.target.url);
    FieldCompares("sni", ev, ev.target.sni);
    FieldCompares("http_host", ev, ev.target.httpHost);
    FieldCompares("tls", ev, if ev.tls then "true" else "false");
    FieldCompares("alive", ev, if "alive" in ev.meta && ev.meta["alive"] == "true" then "true" else "false");
  }
}
