/**
 * Records of ports in an external DNS service.
 *
 * Each port may have a row with the name a user gave it, the name and domain
 * last sent to the service, and the pair sent before that. Port callbacks send
 * and remove records according to the row.
 */
module ExternalDns {
  import opened Options

  type PortId = string
  type NetworkId = string
  type Ip = string

  /** A network: its domain, whether its ports concern the external service
      and whether the domain that applies to it is the default one. */
  datatype Network = Network(domain: string, external: bool, defaultDomain: bool)
  datatype Port = Port(network: NetworkId, ips: set<Ip>)
  datatype Row = Row(dnsName: string, name: string, domain: string, previousName: string, previousDomain: string)
  datatype Record = Record(domain: string, name: string, ip: Ip)

  type Ports = map<PortId, Port>
  type Rows = map<PortId, Row>

  function Records(domain: string, name: string, ips: set<Ip>): set<Record> {
    set ip | ip in ips :: Record(domain, name, ip)
  }

  /** Whether a network's ports are sent to the service at all. */
  predicate Served(net: Network) {
    net.domain != "" && net.external
  }

  function Shown(row: Option<Row>): string {
    if row.Some? then row.value.dnsName else ""
  }

  // --------------------------------------------------------------- rows

  /** `process_create_port`: the row of a new port, if it gets one. */
  function CreatedRow(net: Network, dnsName: string, dnsDomain: string): Option<Row> {
    if (dnsName == "" && dnsDomain == "") || net.defaultDomain then None else
    var external := if dnsDomain != "" then dnsDomain else net.domain;
    if !net.external || dnsName == "" || external == "" then Some(Row(dnsName, "", "", "", ""))
    else Some(Row(dnsName, dnsName, external, "", ""))
  }

  /** What a new port's row sends: the name requested, in the domain requested for
      the port or else in that of the network; nothing for a network that is not
      external, without a name, or without either domain. */
  lemma {:induction false} CreatedRowMeans(net: Network, dnsName: string, dnsDomain: string)
    ensures var row := CreatedRow(net, dnsName, dnsDomain);
            && (row.Some? <==> !net.defaultDomain && (dnsName != "" || dnsDomain != ""))
            && (row.Some? ==> row.value.dnsName == dnsName && row.value.previousName == "" && row.value.previousDomain == "")
            && (row.Some? && net.external && dnsName != "" && dnsDomain != "" ==> row.value.name == dnsName && row.value.domain == dnsDomain)
            && (row.Some? && net.external && dnsName != "" && dnsDomain == "" && net.domain != "" ==>
                  row.value.name == dnsName && row.value.domain == net.domain)
            && (row.Some? && (!net.external || dnsName == "" || (dnsDomain == "" && net.domain == "")) ==>
                  row.value.name == "" && row.value.domain == "")
  {
  }

  /** `_update_dns_db`: the new name, if any, goes into the row; the pair sent
      so far becomes the previous one. */
  function UpdatedRow(row: Option<Row>, dnsName: Option<string>, domain: string, fixedIps: bool): Option<Row> {
    match row
    case Some(r) =>
      var changed := dnsName.Some? && r.name != dnsName.value;
      var moved := if changed || (fixedIps && r.name != "") then r.(previousName := r.name, previousDomain := r.domain) else r;
      Some(if changed then
             moved.(dnsName := dnsName.value, name := dnsName.value, domain := if dnsName.value != "" then domain else "")
           else moved)
    case None =>
      if dnsName.Some? && dnsName.value != "" then Some(Row(dnsName.value, dnsName.value, domain, "", "")) else None
  }

  /** What an update in a served network makes of a row: a new name is sent in the
      network's domain, no name nowhere, and on that or a new address the pair
      sent so far becomes the previous one. */
  lemma {:induction false} UpdatedRowMeans(row: Option<Row>, dnsName: Option<string>, domain: string, fixedIps: bool)
    ensures var r := UpdatedRow(row, dnsName, domain, fixedIps);
            var sent, sentIn := if row.Some? then row.value.name else "", if row.Some? then row.value.domain else "";
            var renamed := dnsName.Some? && dnsName.value != sent;
            && (r.Some? <==> row.Some? || renamed)
            && (renamed ==> r.value.dnsName == dnsName.value && r.value.name == dnsName.value)
            && (renamed && dnsName.value != "" ==> r.value.domain == domain)
            && (renamed && dnsName.value == "" ==> r.value.domain == "")
            && (!renamed && row.Some? ==> r.value.dnsName == row.value.dnsName && r.value.name == sent && r.value.domain == sentIn)
            && (row.Some? && (renamed || (fixedIps && sent != "")) ==> r.value.previousName == sent && r.value.previousDomain == sentIn)
            && (row.Some? && !renamed && !(fixedIps && sent != "") ==> r == row)
            && (row.None? && r.Some? ==> r.value.previousName == "" && r.value.previousDomain == "")
  {
  }

  /** `_process_only_dns_name_update`: the name is kept for the port only. */
  function RenamedRow(row: Option<Row>, dnsName: string): Option<Row> {
    match row
    case Some(r) => Some(r.(dnsName := dnsName))
    case None => if dnsName != "" then Some(Row(dnsName, "", "", "", "")) else None
  }

  datatype Request = Request(dnsName: Option<string>, fixedIps: bool)

  /** `process_update_port`: the row afterwards and the name put into the
      response. */
  function Processed(row: Option<Row>, net: Network, q: Request): (r: (Option<Row>, string)) {
    if q.dnsName.None? && !q.fixedIps then (row, Shown(row))
    else if q.dnsName.Some? && net.defaultDomain then (row, "")
    else if Served(net) then
      var row' := UpdatedRow(row, q.dnsName, net.domain, q.fixedIps); (row', Shown(row'))
    else if q.dnsName.Some? then
      var row' := RenamedRow(row, q.dnsName.value); (row', Shown(row'))
    else (row, "")
  }

  /** The five cases: nothing asked for; a name in a network of the default domain;
      a served network; a name in another network, which is kept but not sent;
      and only addresses there. */
  lemma {:induction false} ProcessedMeans(row: Option<Row>, net: Network, q: Request)
    ensures var (r, shown) := Processed(row, net, q);
            var served := net.domain != "" && net.external;
            && (q == Request(None, false) ==> r == row && shown == (if row.Some? then row.value.dnsName else ""))
            && (q.dnsName.Some? && net.defaultDomain ==> r == row && shown == "")
            && (q != Request(None, false) && !(q.dnsName.Some? && net.defaultDomain) && served ==>
                  r == UpdatedRow(row, q.dnsName, net.domain, q.fixedIps) && shown == (if r.Some? then r.value.dnsName else ""))
            && (q.dnsName.Some? && !net.defaultDomain && !served ==>
                  && (r.Some? <==> row.Some? || q.dnsName.value != "")
                  && (row.Some? ==> r.value == row.value.(dnsName := q.dnsName.value))
                  && (row.None? && r.Some? ==> r.value == Row(q.dnsName.value, "", "", "", ""))
                  && shown == q.dnsName.value)
            && (q.dnsName.None? && q.fixedIps && !served ==> r == row && shown == "")
  {
  }

  // ------------------------------------------------------------ service

  /** `_update_port_in_external_dns_service`. */
  function Republished(published: set<Record>, row: Option<Row>, changed: bool, before: set<Ip>, after: set<Ip>): set<Record> {
    if !changed || row.None? then published else
    var r := row.value;
    var less := if r.previousName != "" then published - Records(r.previousDomain, r.previousName, before) else published;
    if r.name != "" then less + Records(r.domain, r.name, after) else less
  }

  /** The records removed and sent: the previous pair for the old addresses, then
      the current one for the new. */
  lemma {:induction false} RepublishedMeans(published: set<Record>, row: Option<Row>, changed: bool, before: set<Ip>, after: set<Ip>, rec: Record)
    ensures rec in Republished(published, row, changed, before, after) <==>
            || (changed && row.Some? && row.value.name != "" && rec.ip in after && rec.name == row.value.name && rec.domain == row.value.domain)
            || (rec in published &&
                !(changed && row.Some? && row.value.previousName != "" && rec.ip in before &&
                  rec.name == row.value.previousName && rec.domain == row.value.previousDomain))
  {
  }

  // ---------------------------------------------------------- agreement

  /** The row of port `p` calls for this record. */
  predicate Calls(rows: Rows, ports: Ports, p: PortId, rec: Record) {
    && p in ports && p in rows && rows[p].name != ""
    && rec.ip in ports[p].ips && rec.name == rows[p].name && rec.domain == rows[p].domain
  }

  ghost predicate Agrees(rows: Rows, ports: Ports, published: set<Record>) {
    forall rec :: rec in published <==> exists p :: Calls(rows, ports, p, rec)
  }

  ghost predicate Disjoint(ports: Ports) {
    forall p, q :: p in ports && q in ports && p != q ==> ports[p].ips !! ports[q].ips
  }

  function RowOf(rows: Rows, p: PortId): Option<Row> {
    if p in rows then Some(rows[p]) else None
  }

  function WithRow(rows: Rows, p: PortId, row: Option<Row>): Rows {
    if row.Some? then rows[p := row.value] else rows - {p}
  }

  /** The name in the row changes by this request. */
  predicate Renames(row: Option<Row>, net: Network, q: Request) {
    && Served(net) && !(q.dnsName.Some? && net.defaultDomain)
    && q.dnsName.Some? && q.dnsName.value != (if row.Some? then row.value.name else "")
  }

  /** The request makes the pair sent last the one to be removed. */
  predicate Replaces(row: Option<Row>, net: Network, q: Request) {
    && Served(net) && !(q.dnsName.Some? && net.defaultDomain)
    && (q.fixedIps || Renames(row, net, q))
  }

  predicate Changed(row: Option<Row>, net: Network, q: Request, domainChanged: bool, before: set<Ip>, after: set<Ip>) {
    Processed(row, net, q).1 != Shown(row) || domainChanged || before != after
  }

  /** When an update leaves the service in agreement: a new name must differ
      from the one shown before, or addresses or domain must have changed, and
      an address may only go away if the pair sent last is the one removed. */
  predicate Safe(row: Option<Row>, net: Network, q: Request, domainChanged: bool, before: set<Ip>, after: set<Ip>) {
    if Renames(row, net, q) then
      q.dnsName.value != Shown(row) || domainChanged || before != after || before == {}
    else
      || Replaces(row, net, q)
      || row.None? || row.value.name == ""
      || (row.value.previousName == row.value.name && row.value.previousDomain == row.value.domain)
      || before <= after
  }

  /** The records of a single port before and after, for a fixed address. */
  predicate Wants(row: Option<Row>, ips: set<Ip>, rec: Record) {
    row.Some? && row.value.name != "" && rec.ip in ips && rec.name == row.value.name && rec.domain == row.value.domain
  }

  /** Exactness for one port, record by record. */
  lemma {:induction false} UpdateOfRecord(row: Option<Row>, net: Network, q: Request, domainChanged: bool,
                                          before: set<Ip>, after: set<Ip>, published: set<Record>, rec: Record)
    requires Safe(row, net, q, domainChanged, before, after)
    requires rec.ip in before + after && (rec in published <==> Wants(row, before, rec))
    ensures var row' := Processed(row, net, q).0;
            var published' := Republished(published, row', Changed(row, net, q, domainChanged, before, after), before, after);
            rec in published' <==> Wants(row', after, rec)
  {
  }

  /** An update that is not safe leaves some record wrong. */
  lemma {:induction false} UnsafeRecord(row: Option<Row>, net: Network, q: Request, domainChanged: bool,
                                        before: set<Ip>, after: set<Ip>, published: set<Record>) returns (rec: Record)
    requires !Safe(row, net, q, domainChanged, before, after)
    requires forall rec: Record :: rec.ip in before + after ==> (rec in published <==> Wants(row, before, rec))
    ensures var row' := Processed(row, net, q).0;
            var published' := Republished(published, row', Changed(row, net, q, domainChanged, before, after), before, after);
            rec.ip in before + after && (rec in published') != Wants(row', after, rec)
  {
    if Renames(row, net, q) {
      assert before == after;
      var ip :| ip in before;
      if row.Some? && row.value.name != "" {
        rec := Record(row.value.domain, row.value.name, ip);
      } else {
        rec := Record(net.domain, q.dnsName.value, ip);
      }
    } else {
      var ip :| ip in before && ip !in after;
      rec := Record(row.value.domain, row.value.name, ip);
    }
  }

  // --------------------------------------------------------- whole state

  datatype State = State(networks: map<NetworkId, Network>, ports: Ports, rows: Rows, published: set<Record>)

  datatype Event =
    | SetDomain(network: NetworkId, value: Network)
    | Create(id: PortId, port: Port, dnsName: string, dnsDomain: string)
    | Update(id: PortId, request: Request, ips: set<Ip>, domainChanged: bool)
    | Delete(id: PortId)

  ghost predicate Well(s: State) {
    && Disjoint(s.ports)
    && (forall p :: p in s.ports ==> s.ports[p].network in s.networks)
    && (forall p :: p in s.rows ==> p in s.ports)
  }

  /** What the platform guarantees: ports that are there, on networks that are
      there, and addresses no other port has. */
  ghost predicate Applies(s: State, e: Event) {
    match e
    case SetDomain(n, _) => true
    case Create(id, port, _, _) =>
      id !in s.ports && port.network in s.networks && forall p :: p in s.ports ==> s.ports[p].ips !! port.ips
    case Update(id, _, ips, _) =>
      id in s.ports && forall p :: p in s.ports && p != id ==> s.ports[p].ips !! ips
    case Delete(id) => id in s.ports
  }

  function AfterUpdate(s: State, id: PortId, q: Request, ips: set<Ip>, domainChanged: bool): State
    requires id in s.ports && s.ports[id].network in s.networks
  {
    var row, net, before := RowOf(s.rows, id), s.networks[s.ports[id].network], s.ports[id].ips;
    var row' := Processed(row, net, q).0;
    s.(ports := s.ports[id := s.ports[id].(ips := ips)],
       rows := WithRow(s.rows, id, row'),
       published := Republished(s.published, row', Changed(row, net, q, domainChanged, before, ips), before, ips))
  }

  /** A new name in a served network: the row carries it with the network's domain,
      and if the change is noticed it is sent for each address. */
  lemma {:induction false} RenameSends(s: State, id: PortId, q: Request, ips: set<Ip>, domainChanged: bool)
    requires id in s.ports && s.ports[id].network in s.networks
    ensures var net, s' := s.networks[s.ports[id].network], AfterUpdate(s, id, q, ips, domainChanged);
            var sent := if id in s.rows then s.rows[id].name else "";
            net.domain != "" && net.external && !net.defaultDomain && q.dnsName.Some? && q.dnsName.value != sent ==>
              && id in s'.rows && s'.rows[id].name == q.dnsName.value && s'.rows[id].dnsName == q.dnsName.value
              && s'.rows[id].domain == (if q.dnsName.value != "" then net.domain else "")
              && (q.dnsName.value != "" && (q.dnsName.value != Shown(RowOf(s.rows, id)) || domainChanged || s.ports[id].ips != ips) ==>
                    forall ip :: ip in ips ==> Record(net.domain, q.dnsName.value, ip) in s'.published)
  {
    var row, net := RowOf(s.rows, id), s.networks[s.ports[id].network];
    ProcessedMeans(row, net, q);
    UpdatedRowMeans(row, q.dnsName, net.domain, q.fixedIps);
    var s' := AfterUpdate(s, id, q, ips, domainChanged);
    var row' := Processed(row, net, q).0;
    var changed := Changed(row, net, q, domainChanged, s.ports[id].ips, ips);
    hide Republished, Processed, UpdatedRow;
    if q.dnsName.Some? && row'.Some? && changed {
      forall ip | ip in ips ensures row'.value.name != "" ==> Record(row'.value.domain, row'.value.name, ip) in s'.published {
        RepublishedMeans(s.published, row', changed, s.ports[id].ips, ips, Record(row'.value.domain, row'.value.name, ip));
      }
    }
  }

  function AfterCreate(s: State, id: PortId, port: Port, dnsName: string, dnsDomain: string): State
    requires port.network in s.networks
  {
    var row := CreatedRow(s.networks[port.network], dnsName, dnsDomain);
    s.(ports := s.ports[id := port], rows := WithRow(s.rows, id, row),
       published := if row.Some? && row.value.name != "" then
                      s.published + Records(row.value.domain, row.value.name, port.ips) else s.published)
  }

  function AfterDelete(s: State, id: PortId): State
    requires id in s.ports
  {
    s.(ports := s.ports - {id}, rows := s.rows - {id},
       published := if id in s.rows && s.rows[id].name != "" then
                      s.published - Records(s.rows[id].domain, s.rows[id].name, s.ports[id].ips) else s.published)
  }

  function After(s: State, e: Event): State
    requires e.Create? ==> e.port.network in s.networks
    requires e.Update? || e.Delete? ==> e.id in s.ports && s.ports[e.id].network in s.networks
  {
    match e
    case SetDomain(n, net) => s.(networks := s.networks[n := net])
    case Create(id, port, dnsName, dnsDomain) => AfterCreate(s, id, port, dnsName, dnsDomain)
    case Update(id, q, ips, domainChanged) => AfterUpdate(s, id, q, ips, domainChanged)
    case Delete(id) => AfterDelete(s, id)
  }

  ghost predicate Agreement(s: State) {
    Agrees(s.rows, s.ports, s.published)
  }

  /** Only port `id` can call for records of its addresses. */
  lemma {:induction false} Owner(rows: Rows, ports: Ports, id: PortId, ips: set<Ip>, rec: Record)
    requires id in ports && rec.ip in ips
    requires forall p :: p in ports && p != id ==> ports[p].ips !! ips
    ensures (exists p :: Calls(rows, ports, p, rec)) <==> Wants(RowOf(rows, id), ports[id].ips, rec)
  {
    if p :| Calls(rows, ports, p, rec) {
      assert p == id;
    }
    if Wants(RowOf(rows, id), ports[id].ips, rec) {
      assert Calls(rows, ports, id, rec);
    }
  }

  /** A record for somebody else's address concerns the other ports only. */
  lemma {:induction false} Elsewhere(rows: Rows, ports: Ports, rows': Rows, ports': Ports, id: PortId, rec: Record)
    requires rows - {id} == rows' - {id} && ports - {id} == ports' - {id}
    requires id in ports ==> rec.ip !in ports[id].ips
    requires id in ports' ==> rec.ip !in ports'[id].ips
    ensures (exists p :: Calls(rows, ports, p, rec)) <==> (exists p :: Calls(rows', ports', p, rec))
  {
    forall p ensures Calls(rows, ports, p, rec) <==> Calls(rows', ports', p, rec) {
      if p != id {
        assert p in rows <==> p in rows - {id};
        assert p in rows' <==> p in rows' - {id};
        assert p in ports <==> p in ports - {id};
        assert p in ports' <==> p in ports' - {id};
        assert p in rows - {id} ==> rows[p] == (rows - {id})[p];
        assert p in rows' - {id} ==> rows'[p] == (rows' - {id})[p];
        assert p in ports - {id} ==> ports[p] == (ports - {id})[p];
        assert p in ports' - {id} ==> ports'[p] == (ports' - {id})[p];
      }
    }
  }

  /** The update of one port leaves the service in agreement exactly if it is
      safe. */
  lemma {:induction false} UpdateAgreesIff(s: State, id: PortId, q: Request, ips: set<Ip>, domainChanged: bool)
    requires Well(s) && Agreement(s) && Applies(s, Update(id, q, ips, domainChanged))
    ensures Agreement(AfterUpdate(s, id, q, ips, domainChanged)) <==>
            Safe(RowOf(s.rows, id), s.networks[s.ports[id].network], q, domainChanged, s.ports[id].ips, ips)
  {
    hide Processed, Republished, Safe, Changed, Wants, Calls;
    var s' := AfterUpdate(s, id, q, ips, domainChanged);
    var row, net, before := RowOf(s.rows, id), s.networks[s.ports[id].network], s.ports[id].ips;
    var row' := Processed(row, net, q).0;
    assert RowOf(s'.rows, id) == row';
    forall rec: Record | rec.ip in before + ips
      ensures rec in s.published <==> Wants(row, before, rec)
      ensures (exists p :: Calls(s'.rows, s'.ports, p, rec)) <==> Wants(row', ips, rec)
    {
      Owner(s.rows, s.ports, id, before + ips, rec);
      Owner(s'.rows, s'.ports, id, before + ips, rec);
    }
    if Safe(row, net, q, domainChanged, before, ips) {
      forall rec: Record ensures rec in s'.published <==> exists p :: Calls(s'.rows, s'.ports, p, rec) {
        if rec.ip in before + ips {
          UpdateOfRecord(row, net, q, domainChanged, before, ips, s.published, rec);
        } else {
          RepublishedElsewhere(s.published, row', Changed(row, net, q, domainChanged, before, ips), before, ips, rec);
          assert s.rows - {id} == s'.rows - {id} && s.ports - {id} == s'.ports - {id};
          Elsewhere(s.rows, s.ports, s'.rows, s'.ports, id, rec);
        }
      }
    } else {
      var rec := UnsafeRecord(row, net, q, domainChanged, before, ips, s.published);
      assert !(rec in s'.published <==> exists p :: Calls(s'.rows, s'.ports, p, rec));
    }
  }

  lemma {:induction false} RepublishedElsewhere(published: set<Record>, row: Option<Row>, changed: bool,
                                                before: set<Ip>, after: set<Ip>, rec: Record)
    requires rec.ip !in before + after
    ensures rec in Republished(published, row, changed, before, after) <==> rec in published
  {
  }

  lemma {:induction false} CreateAgrees(s: State, id: PortId, port: Port, dnsName: string, dnsDomain: string)
    requires Well(s) && Agreement(s) && Applies(s, Create(id, port, dnsName, dnsDomain))
    ensures Agreement(AfterCreate(s, id, port, dnsName, dnsDomain))
  {
    hide CreatedRow, Calls;
    var s' := AfterCreate(s, id, port, dnsName, dnsDomain);
    var row := CreatedRow(s.networks[port.network], dnsName, dnsDomain);
    assert RowOf(s'.rows, id) == row;
    forall rec: Record ensures rec in s'.published <==> exists p :: Calls(s'.rows, s'.ports, p, rec) {
      if rec.ip in port.ips {
        Owner(s'.rows, s'.ports, id, port.ips, rec);
        if p :| Calls(s.rows, s.ports, p, rec) { CallsOwn(s.rows, s.ports, p, rec); }
      } else {
        assert s.rows - {id} == s'.rows - {id} && s.ports - {id} == s'.ports - {id};
        Elsewhere(s.rows, s.ports, s'.rows, s'.ports, id, rec);
      }
    }
  }

  lemma {:induction false} CallsOwn(rows: Rows, ports: Ports, p: PortId, rec: Record)
    requires Calls(rows, ports, p, rec)
    ensures p in ports && rec.ip in ports[p].ips && p in rows
  {
  }

  lemma {:induction false} DeleteAgrees(s: State, id: PortId)
    requires Well(s) && Agreement(s) && Applies(s, Delete(id))
    ensures Agreement(AfterDelete(s, id))
  {
    hide Calls;
    var s' := AfterDelete(s, id);
    forall rec: Record ensures rec in s'.published <==> exists p :: Calls(s'.rows, s'.ports, p, rec) {
      if rec.ip in s.ports[id].ips {
        Owner(s.rows, s.ports, id, s.ports[id].ips, rec);
        if p :| Calls(s'.rows, s'.ports, p, rec) { CallsOwn(s'.rows, s'.ports, p, rec); }
      } else {
        assert s.rows - {id} == s'.rows - {id} && s.ports - {id} == s'.ports - {id};
        Elsewhere(s.rows, s.ports, s'.rows, s'.ports, id, rec);
      }
    }
  }

  // --------------------------------------------------------------- runs

  lemma {:induction false} StaysWell(s: State, e: Event)
    requires Well(s) && Applies(s, e)
    ensures Well(After(s, e))
  {
    hide Processed, CreatedRow, Republished;
  }

  ghost predicate SafeEvent(s: State, e: Event)
    requires Well(s) && Applies(s, e)
  {
    e.Update? ==> Safe(RowOf(s.rows, e.id), s.networks[s.ports[e.id].network], e.request, e.domainChanged, s.ports[e.id].ips, e.ips)
  }

  lemma {:induction false} EventAgrees(s: State, e: Event)
    requires Well(s) && Agreement(s) && Applies(s, e)
    ensures Agreement(After(s, e)) <==> SafeEvent(s, e)
  {
    hide Agrees, Safe, AfterUpdate, AfterCreate, AfterDelete;
    match e
    case SetDomain(n, net) =>
    case Create(id, port, dnsName, dnsDomain) => CreateAgrees(s, id, port, dnsName, dnsDomain);
    case Update(id, q, ips, domainChanged) => UpdateAgreesIff(s, id, q, ips, domainChanged);
    case Delete(id) => DeleteAgrees(s, id);
  }

  ghost predicate Run(states: seq<State>, events: seq<Event>) {
    && |states| == |events| + 1 && Well(states[0])
    && forall i :: 0 <= i < |events| ==> Well(states[i]) && Applies(states[i], events[i]) && states[i + 1] == After(states[i], events[i])
  }

  /** Every network's ports are served, under a domain that is not the default. */
  ghost predicate AllServed(s: State) {
    forall n :: n in s.networks ==> Served(s.networks[n]) && !s.networks[n].defaultDomain
  }

  ghost predicate NamesMatch(s: State) {
    forall p :: p in s.rows ==> s.rows[p].dnsName == s.rows[p].name
  }

  /** Addresses change only through `fixed_ips`, domains only to others that
      are served. */
  ghost predicate Ordinary(s: State, e: Event) {
    match e
    case SetDomain(_, net) => Served(net) && !net.defaultDomain
    case Create(_, _, _, _) => true
    case Update(id, q, ips, _) => id in s.ports && (ips != s.ports[id].ips ==> q.fixedIps)
    case Delete(_) => true
  }

  /** The row of a port in a served network after an update. */
  lemma {:induction false} OrdinaryRow(row: Option<Row>, net: Network, q: Request, domainChanged: bool, before: set<Ip>, after: set<Ip>)
    requires Served(net) && !net.defaultDomain && (row.Some? ==> row.value.dnsName == row.value.name)
    requires before != after ==> q.fixedIps
    ensures Safe(row, net, q, domainChanged, before, after)
    ensures var row' := Processed(row, net, q).0; row'.Some? ==> row'.value.dnsName == row'.value.name
  {
  }

  lemma {:induction false} OrdinaryIsSafe(s: State, e: Event)
    requires Well(s) && AllServed(s) && NamesMatch(s) && Applies(s, e) && Ordinary(s, e)
    ensures SafeEvent(s, e) && AllServed(After(s, e)) && NamesMatch(After(s, e))
  {
    match e
    case SetDomain(n, net) =>
    case Create(id, port, dnsName, dnsDomain) =>
    case Update(id, q, ips, domainChanged) =>
      hide Safe, Processed, Republished;
      OrdinaryRow(RowOf(s.rows, id), s.networks[s.ports[id].network], q, domainChanged, s.ports[id].ips, ips);
    case Delete(id) =>
  }

  /** In every ordinary run, whatever the previous pairs in the rows, the
      service holds exactly each row's name and domain for each address. */
  lemma {:induction false} OrdinaryRunAgrees(states: seq<State>, events: seq<Event>, i: nat)
    requires Run(states, events) && i <= |events|
    requires AllServed(states[0]) && NamesMatch(states[0]) && Agreement(states[0])
    requires forall j :: 0 <= j < |events| ==> Ordinary(states[j], events[j])
    ensures Well(states[i]) && AllServed(states[i]) && NamesMatch(states[i]) && Agreement(states[i])
    decreases i
  {
    hide After, Ordinary, NamesMatch, AllServed, Agreement, Applies, SafeEvent;
    if i > 0 {
      OrdinaryRunAgrees(states, events, i - 1);
      var s, e := states[i - 1], events[i - 1];
      OrdinaryIsSafe(s, e);
      StaysWell(s, e);
      EventAgrees(s, e);
    }
  }

  /** Outside ordinary runs: as long as every update is safe. */
  lemma {:induction false} SafeRunAgrees(states: seq<State>, events: seq<Event>, i: nat)
    requires Run(states, events) && i <= |events| && Agreement(states[0])
    requires forall j :: 0 <= j < |events| ==> SafeEvent(states[j], events[j])
    ensures Well(states[i]) && Agreement(states[i])
    decreases i
  {
    hide After, Agreement, Applies, SafeEvent;
    if i > 0 {
      SafeRunAgrees(states, events, i - 1);
      StaysWell(states[i - 1], events[i - 1]);
      EventAgrees(states[i - 1], events[i - 1]);
    }
  }

  /** A port gets a record, its network stops being served, and then the port
      gets another address. */
  function StaleEvents(): seq<Event> {
    [SetDomain("n", Network("x.", true, false)), Create("p", Port("n", {"10.0.0.1"}), "a", ""),
     SetDomain("n", Network("", true, false)), Update("p", Request(None, true), {"10.0.0.2"}, false)]
  }

  /** The states of that run. */
  function StaleState(i: nat): State {
    var n := if i == 0 then map[] else map["n" := Network(if i < 3 then "x." else "", true, false)];
    if i < 2 then State(n, map[], map[], {})
    else State(n, map["p" := Port("n", if i < 4 then {"10.0.0.1"} else {"10.0.0.2"})], map["p" := Row("a", "a", "x.", "", "")],
               {Record("x.", "a", "10.0.0.1")} + if i < 4 then {} else {Record("x.", "a", "10.0.0.2")})
  }

  lemma {:induction false} OneRecord(domain: string, name: string, ip: Ip)
    ensures Records(domain, name, {ip}) == {Record(domain, name, ip)}
  {
  }

  lemma {:induction false} StaleDomains()
    ensures |StaleEvents()| == 4
    ensures Applies(StaleState(0), StaleEvents()[0]) && StaleState(1) == After(StaleState(0), StaleEvents()[0])
    ensures Applies(StaleState(2), StaleEvents()[2]) && StaleState(3) == After(StaleState(2), StaleEvents()[2])
  {
  }

  lemma {:induction false} StaleCreate()
    ensures Applies(StaleState(1), StaleEvents()[1]) && StaleState(2) == After(StaleState(1), StaleEvents()[1])
  {
    OneRecord("x.", "a", "10.0.0.1");
  }

  lemma {:induction false} StaleMove()
    ensures Applies(StaleState(3), StaleEvents()[3])
    ensures StaleState(4) == After(StaleState(3), StaleEvents()[3])
  {
    OneRecord("x.", "a", "10.0.0.2");
  }

  lemma {:induction false} StaleStart()
    ensures StaleState(0) == State(map[], map[], map[], {}) && Well(StaleState(0)) && Agreement(StaleState(0))
  {
  }

  lemma {:induction false} StaleUnsafe()
    requires Well(StaleState(3)) && Applies(StaleState(3), StaleEvents()[3])
    ensures !SafeEvent(StaleState(3), StaleEvents()[3])
  {
    assert "10.0.0.1" in StaleState(3).ports["p"].ips && "10.0.0.1" !in {"10.0.0.2"};
  }

  /** What the rows cannot undo: in this run from nothing the record of an
      address that no port has any more stays, though the service agreed before
      the last event. */
  lemma {:induction false} StaleRecordStays()
    ensures StaleState(0) == State(map[], map[], map[], {})
    ensures Run([StaleState(0), StaleState(1), StaleState(2), StaleState(3), StaleState(4)], StaleEvents())
    ensures Agreement(StaleState(3)) && !Agreement(StaleState(4))
    ensures Record("x.", "a", "10.0.0.1") in StaleState(4).published && StaleState(4).ports.Keys == {"p"}
    ensures StaleState(4).ports["p"].ips == {"10.0.0.2"}
  {
    StaleStart();
    StaleMove();
    StaleWell();
    StaleUnsafe();
    StaleIsRun();
    hide After, Agreement, Applies, SafeEvent, Well, StaleEvents, Run;
    EventAgrees(StaleState(3), StaleEvents()[3]);
  }

  lemma {:induction false} StaleIsRun()
    ensures Run([StaleState(0), StaleState(1), StaleState(2), StaleState(3), StaleState(4)], StaleEvents())
  {
    hide After, Applies, Well, StaleState, StaleEvents, Agreement;
    StaleDomains();
    StaleCreate();
    StaleMove();
    StaleWell();
  }

  /** The states are well formed, and the service agrees up to the last event. */
  lemma {:induction false} StaleWell()
    ensures Well(StaleState(0)) && Well(StaleState(1)) && Well(StaleState(2)) && Well(StaleState(3)) && Agreement(StaleState(3))
  {
    var e := StaleEvents();
    StaleStart();
    StaleDomains();
    StaleCreate();
    assert !e[0].Update? && !e[1].Update? && !e[2].Update?;
    hide StaleState, StaleEvents, After, Well, Agreement, Applies;
    StaysWell(StaleState(0), e[0]);
    EventAgrees(StaleState(0), e[0]);
    StaysWell(StaleState(1), e[1]);
    EventAgrees(StaleState(1), e[1]);
    StaysWell(StaleState(2), e[2]);
    EventAgrees(StaleState(2), e[2]);
  }

  // --------------------------------------------------------- the driver

  class DnsExtensionDriver {
    var networks: map<NetworkId, Network>
    var ports: Ports
    var rows: Rows
    var published: set<Record>

    constructor ()
      ensures Now() == State(map[], map[], map[], {})
    {
      networks, ports, rows, published := map[], map[], map[], {};
    }

    ghost function Now(): State
      reads this
    {
      State(networks, ports, rows, published)
    }

    method ProcessCreatePort(id: PortId, net: Network, dnsName: string, dnsDomain: string)
      requires id !in rows
      modifies `rows
      ensures rows == WithRow(old(rows), id, CreatedRow(net, dnsName, dnsDomain))
      ensures (dnsName == "" && dnsDomain == "") || net.defaultDomain ==> rows == old(rows)
      ensures (dnsName != "" || dnsDomain != "") && !net.defaultDomain ==>
                var domain := if dnsDomain != "" then dnsDomain else net.domain;
                var sends := net.external && dnsName != "" && domain != "";
                rows == old(rows)[id := Row(dnsName, if sends then dnsName else "", if sends then domain else "", "", "")]
    {
      if dnsName == "" && dnsDomain == "" {
        return;
      }
      if net.defaultDomain {
        return;
      }
      var external := if dnsDomain != "" then dnsDomain else net.domain;
      var name, domain := dnsName, external;
      if !net.external || dnsName == "" || external == "" {
        name, domain := "", "";
      }
      rows := rows[id := Row(dnsName, name, domain, "", "")];
    }

    method UpdateDnsDb(id: PortId, dnsName: Option<string>, domain: string, fixedIps: bool)
      modifies `rows
      ensures rows == WithRow(old(rows), id, UpdatedRow(RowOf(old(rows), id), dnsName, domain, fixedIps))
    {
      if id in rows {
        var row := rows[id];
        var changed := dnsName.Some? && row.name != dnsName.value;
        if changed || (fixedIps && row.name != "") {
          row := row.(previousName := row.name, previousDomain := row.domain);
          if changed {
            row := row.(dnsName := dnsName.value, name := dnsName.value);
            row := row.(domain := if dnsName.value != "" then domain else "");
          }
        }
        rows := rows[id := row];
      } else if dnsName.Some? && dnsName.value != "" {
        rows := rows[id := Row(dnsName.value, dnsName.value, domain, "", "")];
      }
    }

    method ProcessOnlyDnsNameUpdate(id: PortId, dnsName: string)
      modifies `rows
      ensures rows == WithRow(old(rows), id, RenamedRow(RowOf(old(rows), id), dnsName))
    {
      if id in rows {
        rows := rows[id := rows[id].(dnsName := dnsName)];
      } else if dnsName != "" {
        rows := rows[id := Row(dnsName, "", "", "", "")];
      }
    }

    /** Returns the name put into the response. */
    method ProcessUpdatePort(id: PortId, net: Network, q: Request) returns (shown: string)
      modifies `rows
      ensures (RowOf(rows, id), shown) == Processed(RowOf(old(rows), id), net, q)
      ensures rows == WithRow(old(rows), id, RowOf(rows, id))
    {
      if q.dnsName.None? && !q.fixedIps {
        return Shown(RowOf(rows, id));
      }
      if q.dnsName.Some? && net.defaultDomain {
        return "";
      }
      if net.domain == "" || !net.external {
        if q.dnsName.None? { return ""; }
        ProcessOnlyDnsNameUpdate(id, q.dnsName.value);
      } else {
        UpdateDnsDb(id, q.dnsName, net.domain, q.fixedIps);
      }
      shown := Shown(RowOf(rows, id));
    }

    method UpdatePortInExternalDnsService(id: PortId, changed: bool, before: set<Ip>, after: set<Ip>)
      modifies `published
      ensures published == Republished(old(published), RowOf(rows, id), changed, before, after)
    {
      if !changed || id !in rows || (rows[id].previousName == "" && rows[id].name == "") {
        return;
      }
      if rows[id].previousName != "" {
        published := published - Records(rows[id].previousDomain, rows[id].previousName, before);
      }
      if rows[id].name != "" {
        published := published + Records(rows[id].domain, rows[id].name, after);
      }
    }

    method CreatePort(id: PortId, port: Port, dnsName: string, dnsDomain: string)
      requires Well(Now()) && Applies(Now(), Create(id, port, dnsName, dnsDomain))
      modifies this
      ensures Now() == After(old(Now()), Create(id, port, dnsName, dnsDomain))
      ensures var net := old(networks)[port.network];
              var domain := if dnsDomain != "" then dnsDomain else net.domain;
              var sends := net.external && !net.defaultDomain && dnsName != "" && domain != "";
              && published == old(published) + (if sends then set ip | ip in port.ips :: Record(domain, dnsName, ip) else {})
              && (sends ==> id in rows && rows[id].name == dnsName && rows[id].domain == domain)
              && ports == old(ports)[id := port] && networks == old(networks) && rows - {id} == old(rows) - {id}
    {
      CreatedRowMeans(networks[port.network], dnsName, dnsDomain);
      ports := ports[id := port];
      ProcessCreatePort(id, networks[port.network], dnsName, dnsDomain);
      if id in rows && rows[id].name != "" {
        published := published + Records(rows[id].domain, rows[id].name, port.ips);
      }
    }

    method UpdatePort(id: PortId, q: Request, ips: set<Ip>, domainChanged: bool)
      requires Well(Now()) && Applies(Now(), Update(id, q, ips, domainChanged))
      modifies this
      ensures Now() == After(old(Now()), Update(id, q, ips, domainChanged))
      ensures ports == old(ports)[id := old(ports)[id].(ips := ips)] && networks == old(networks) && rows - {id} == old(rows) - {id}
      ensures var net := old(networks)[old(ports)[id].network];
              var sent := if id in old(rows) then old(rows)[id].name else "";
              net.domain != "" && net.external && !net.defaultDomain && q.dnsName.Some? && q.dnsName.value != sent ==>
                && id in rows && rows[id].name == q.dnsName.value && rows[id].dnsName == q.dnsName.value
                && rows[id].domain == (if q.dnsName.value != "" then net.domain else "")
                && (q.dnsName.value != "" && (q.dnsName.value != Shown(RowOf(old(rows), id)) || domainChanged || old(ports)[id].ips != ips) ==>
                      forall ip :: ip in ips ==> Record(net.domain, q.dnsName.value, ip) in published)
    {
      RenameSends(Now(), id, q, ips, domainChanged);
      hide Republished, Processed, UpdatedRow, Changed;
      var original, net := Shown(RowOf(rows, id)), networks[ports[id].network];
      var before := ports[id].ips;
      ports := ports[id := ports[id].(ips := ips)];
      var shown := ProcessUpdatePort(id, net, q);
      UpdatePortInExternalDnsService(id, shown != original || domainChanged || before != ips, before, ips);
    }

    method DeletePort(id: PortId)
      requires Well(Now()) && Applies(Now(), Delete(id))
      modifies this
      ensures Now() == After(old(Now()), Delete(id))
      ensures ports == old(ports) - {id} && rows == old(rows) - {id} && networks == old(networks)
      ensures published == old(published) -
                if id in old(rows) && old(rows)[id].name != "" then
                  set ip | ip in old(ports)[id].ips :: Record(old(rows)[id].domain, old(rows)[id].name, ip)
                else {}
    {
      if id in rows && rows[id].name != "" {
        published := published - Records(rows[id].domain, rows[id].name, ports[id].ips);
      }
      rows, ports := rows - {id}, ports - {id};
    }
  }
}
