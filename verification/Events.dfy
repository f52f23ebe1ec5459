/** The event record shared by every worker (event/event.go, event/target.go). */
module Events {
  import opened Wrappers

  const KIND_FQDN := "fqdn"
  const KIND_DOMAIN := "domain"
  const KIND_IP := "ip"
  const KIND_PORT := "port"
  const KIND_SCREENSHOT := "screenshot"
  const KIND_SERVICE := "service"
  const KIND_NETBLOCK := "netblock"
  const KIND_URL := "url"
  const KIND_FINDING := "finding"

  const TCP := "tcp"
  const UDP := "udp"

  const NAME_REQUESTED := "requested"
  const NAME_OBSERVED := "observed"
  const NAME_DNS_A := "dns_a"
  const NAME_DNS_AAAA := "dns_aaaa"

  const SCHEMA_VERSION := 2

  /** One observed subject. An empty string or port zero means "not given". */
  datatype Target = Target(
    host: string, name: string, nameRole: string, port: int, proto: string,
    url: string, sni: string, httpHost: string)

  /** The triggering subject recorded with a task and with every output. */
  datatype Input = Input(kind: string, value: string, target: Target)

  datatype Event = Event(
    schemaVersion: int, id: string, runId: string, scanId: string,
    kind: string, value: string, source: string, parentId: string,
    target: Target, input: Option<Input>, probe: string, service: string, tls: bool,
    info: map<string, string>, meta: map<string, string>)

  const NO_TARGET := Target("", "", "", 0, "", "", "", "")

  function AsInput(ev: Event): Input {
    Input(ev.kind, ev.value, ev.target)
  }

  /** Reading a Go map: an absent key reads as the empty string. */
  function Lookup(m: map<string, string>, k: string): string {
    if k in m then m[k] else ""
  }

  function Scope(ev: Event): string {
    Lookup(ev.meta, "scope")
  }

  predicate Live(ev: Event) {
    Lookup(ev.meta, "alive") == "true"
  }

  /** IDs that differ from one another and from all that were used before. */
  predicate FreshIds(events: seq<Event>, used: set<string>) {
    && (forall i :: 0 <= i < |events| ==> events[i].id !in used)
    && (forall i, j :: 0 <= i < j < |events| ==> events[i].id != events[j].id)
  }

  /** A forward or requested binding, as opposed to a name merely mentioned. */
  predicate BoundName(ev: Event) {
    && ev.target.host != ""
    && ev.target.name != ""
    && ev.target.nameRole in {NAME_DNS_A, NAME_DNS_AAAA, NAME_REQUESTED}
  }
}
