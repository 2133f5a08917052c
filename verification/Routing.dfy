/** The acknowledgement of a routing change, and what it promises of messages in
    flight and in the queue. Each connection is a pair of channels in order, with a
    multiplexer at the far end that routes under the version it applied last. */
module Routing {
  import opened Common

  type Version = nat
  type Rules = nat  // the routing and key filters a version has
  type ConnectionId = nat

  /** What a client writes: its welcome, and the changes it tells. */
  datatype Written = Hello(version: Version) | PeerControl(id: nat, version: Version)

  /** What a multiplexer writes: its welcome, its word on a change with the rules in
      effect, and the messages it routes, each under the version in effect there. */
  datatype Arriving = Welcome | PeerStatus(references: nat, accepted: bool, under: Version) | Message(version: Version)

  /** The two directions of a connection and the version in effect at its far end. */
  datatype Link = Link(up: seq<Written>, down: seq<Arriving>, applied: Option<Version>)

  /** A connection as the client keeps it. One that is not living may still be
      read on to its end. */
  datatype Connection = Connection(living: bool, registered: bool, readOn: bool, inWelcome: Version,
                                   acknowledged: Version, request: nat)

  // What is in flight

  ghost predicate OnlyUnder(down: seq<Arriving>, from: nat, version: Version) {
    forall i :: from <= i < |down| && down[i].Message? ==> down[i].version == version
  }

  ghost predicate NoControl(up: seq<Written>, from: nat) {
    forall i :: from <= i < |up| ==> !up[i].PeerControl?
  }

  ghost predicate NoHello(up: seq<Written>) {
    forall i :: 0 <= i < |up| ==> !up[i].Hello?
  }

  ghost predicate IdsBelow(link: Link, bound: nat) {
    && (forall i :: 0 <= i < |link.up| && link.up[i].PeerControl? ==> link.up[i].id < bound)
    && (forall i :: 0 <= i < |link.down| && link.down[i].PeerStatus? ==> link.down[i].references < bound)
  }

  /** Nothing on the way but what is routed under the version. */
  ghost predicate Settled(link: Link, version: Version) {
    link.applied == Some(version) && NoControl(link.up, 0) && OnlyUnder(link.down, 0, version)
  }

  /** The request waited for, where it is still on its way out, carries the
      version and is the last one. */
  ghost predicate Asked(connection: Connection, link: Link, version: Version) {
    forall p :: 0 <= p < |link.up| && link.up[p].PeerControl? && link.up[p].id == connection.request ==>
      link.up[p].version == version && NoControl(link.up, p + 1)
  }

  predicate Answers(arriving: Arriving, request: nat) {
    arriving.PeerStatus? && arriving.references == request && arriving.accepted
  }

  /** What follows the answer waited for is routed under the version. */
  ghost predicate Answered(connection: Connection, link: Link, version: Version) {
    forall p :: 0 <= p < |link.down| && Answers(link.down[p], connection.request) ==>
      && link.down[p].under == version && link.applied == Some(version)
      && NoControl(link.up, 0) && OnlyUnder(link.down, p, version)
  }

  /** Before the multiplexer's welcome is read. */
  ghost predicate Handshake(connection: Connection, link: Link) {
    || (link.up == [Hello(connection.inWelcome)] && link.down == [] && link.applied == None)
    || (link.up == [] && link.applied == Some(connection.inWelcome) && OnlyUnder(link.down, 0, connection.inWelcome) &&
        forall i :: 0 <= i < |link.down| ==> !link.down[i].PeerStatus?)
  }

  /** The change told last, on its way out, applied, or answered. */
  ghost predicate Asking(connection: Connection, link: Link, version: Version) {
    NoHello(link.up) && Asked(connection, link, version) && Answered(connection, link, version)
  }

  ghost predicate LinkOk(connection: Connection, link: Link, version: Version) {
    && connection.acknowledged <= version && connection.inWelcome <= version
    && (!connection.registered ==> Handshake(connection, link))
    && (connection.registered ==> Asking(connection, link, version))
    && (connection.registered && connection.acknowledged == version ==> Settled(link, version))
  }

  /** Confirmed, or about to be: its welcome carried the version. */
  predicate Current(connection: Connection, version: Version) {
    if connection.registered then connection.acknowledged == version else connection.inWelcome == version
  }

  ghost predicate AllCurrent(connections: map<ConnectionId, Connection>, version: Version) {
    forall c :: c in connections && connections[c].living ==> Current(connections[c], version)
  }

  ghost predicate LinksOk(connections: map<ConnectionId, Connection>, links: map<ConnectionId, Link>,
                          version: Version, requests: nat)
  {
    && links.Keys == connections.Keys
    && (forall c :: c in connections ==> IdsBelow(links[c], requests))
    && (forall c :: c in connections && connections[c].living ==> LinkOk(connections[c], links[c], version))
  }

  /** Two versions with the same rules. */
  ghost predicate Same(history: seq<Rules>, left: Version, right: Version) {
    left == right || (left < |history| && right < |history| && history[left] == history[right])
  }

  /** A connection that ended while `until` was the version: told of no change since,
      and confirmed for a later one only where that has the same rules. */
  ghost predicate EndedOk(connection: Connection, link: Link, until: Version, history: seq<Rules>, version: Version) {
    && Asking(connection, link, until) && connection.acknowledged <= version && until <= version
    && (connection.acknowledged == version ==> Settled(link, until) && Same(history, until, version))
  }

  ghost predicate EndsOk(connections: map<ConnectionId, Connection>, links: map<ConnectionId, Link>,
                         until: map<ConnectionId, Version>, history: seq<Rules>, version: Version)
  {
    forall c :: c in connections && !connections[c].living && connections[c].registered ==>
      c in links && c in until && EndedOk(connections[c], links[c], until[c], history, version)
  }

  /** Everything read since the confirmation was routed by the rules in effect, but
      for what came late, on a connection read on that had not confirmed them. */
  ghost predicate ReadOk(read: seq<Version>, late: set<nat>, from: nat, history: seq<Rules>, version: Version) {
    forall i :: from <= i < |read| && i !in late ==> Same(history, read[i], version)
  }

  // What a connection's multiplexer has said

  /** A word of a multiplexer on a change, as read. */
  datatype Answer = Answer(references: nat, accepted: bool, said: Rules)

  /** The multiplexer has the version's rules: the welcome it took carried the version, or
      its answer to the last request, with the rules in effect, has been read. */
  ghost predicate Heard(connection: Connection, answers: seq<Answer>, version: Version, rules: Rules) {
    connection.registered && (connection.inWelcome == version || Answer(connection.request, true, rules) in answers)
  }

  /** No answer read is to a request not made yet. */
  ghost predicate AnswersBelow(answers: seq<Answer>, bound: nat) {
    forall i :: 0 <= i < |answers| ==> answers[i].references < bound
  }

  /** A living connection counts as confirmed exactly if its multiplexer said so. */
  ghost predicate AnswersOk(connections: map<ConnectionId, Connection>, answers: map<ConnectionId, seq<Answer>>,
                            version: Version, rules: Rules, requests: nat)
  {
    && answers.Keys == connections.Keys
    && (forall c :: c in connections ==> AnswersBelow(answers[c], requests))
    && (forall c :: c in connections && connections[c].living && connections[c].registered ==>
          (connections[c].acknowledged == version <==> Heard(connections[c], answers[c], version, rules)))
  }

  ghost predicate HeardAll(connections: map<ConnectionId, Connection>, answers: map<ConnectionId, seq<Answer>>, version: Version,
                           rules: Rules)
  {
    forall c :: c in connections && connections[c].living ==> c in answers && Heard(connections[c], answers[c], version, rules)
  }

  lemma OneAnswers(connections: map<ConnectionId, Connection>, answers: map<ConnectionId, seq<Answer>>, version: Version,
                   rules: Rules, requests: nat, c: ConnectionId, connection: Connection, said: seq<Answer>, requests': nat)
    requires AnswersOk(connections, answers, version, rules, requests) && requests <= requests' && AnswersBelow(said, requests')
    requires connection.living && connection.registered ==>
      (connection.acknowledged == version <==> Heard(connection, said, version, rules))
    ensures AnswersOk(connections[c := connection], answers[c := said], version, rules, requests')
  {
    hide Heard;
    forall d | d in connections ensures AnswersBelow(answers[d], requests') {
    }
  }

  /** One connection changed, nothing said on it. */
  lemma OneSilent(connections: map<ConnectionId, Connection>, answers: map<ConnectionId, seq<Answer>>, version: Version,
                  rules: Rules, requests: nat, c: ConnectionId, connection: Connection, requests': nat)
    requires AnswersOk(connections, answers, version, rules, requests) && requests <= requests' && c in connections
    requires connection.living && connection.registered ==>
      || (connection.acknowledged == connection.inWelcome == version)
      || (connection.acknowledged != version && connection.inWelcome != version && requests <= connection.request)
    ensures AnswersOk(connections[c := connection], answers, version, rules, requests')
  {
    hide AnswersOk;
    AnswersHave(connections, answers, version, rules, requests, c);
    OneAnswers(connections, answers, version, rules, requests, c, connection, answers[c], requests');
    assert answers[c := answers[c]] == answers;
  }

  /** Whether all were heard depends on what they count as alone. */
  lemma HeardSame(connections: map<ConnectionId, Connection>, answers: map<ConnectionId, seq<Answer>>,
                  answers': map<ConnectionId, seq<Answer>>, version: Version, rules: Rules, requests: nat)
    requires AnswersOk(connections, answers, version, rules, requests) && AnswersOk(connections, answers', version, rules, requests)
    ensures HeardAll(connections, answers, version, rules) ==> HeardAll(connections, answers', version, rules)
  {
    hide AnswersBelow;
  }

  lemma OneCurrent(connections: map<ConnectionId, Connection>, version: Version, c: ConnectionId, connection: Connection)
    requires AllCurrent(connections, version) && (connection.living ==> Current(connection, version))
    ensures AllCurrent(connections[c := connection], version)
  {
  }

  lemma CurrentIs(connections: map<ConnectionId, Connection>, version: Version, c: ConnectionId)
    requires AllCurrent(connections, version) && c in connections
    ensures connections[c].living ==> Current(connections[c], version)
  {
    hide Current;
  }

  lemma IsCurrent(connections: map<ConnectionId, Connection>, version: Version, c: ConnectionId)
    requires AllCurrent(connections, version) && c in connections && connections[c].living && !connections[c].registered
    ensures connections[c].inWelcome == version
  {
  }

  lemma NotHeardAll(connections: map<ConnectionId, Connection>, answers: map<ConnectionId, seq<Answer>>, version: Version,
                    rules: Rules, c: ConnectionId)
    requires c in connections && connections[c].living && !connections[c].registered
    ensures !HeardAll(connections, answers, version, rules)
  {
  }

  /** A change has been confirmed by none. */
  lemma NoneAnswers(connections: map<ConnectionId, Connection>, answers: map<ConnectionId, seq<Answer>>, was: Version,
                    before: Rules, requests: nat, now: map<ConnectionId, Connection>, rules: Rules, requests': nat)
    requires AnswersOk(connections, answers, was, before, requests) && requests <= requests' && now.Keys == connections.Keys
    requires forall c :: c in connections ==> connections[c].living ==>
      connections[c].inWelcome <= was && connections[c].acknowledged <= was
    requires forall c :: c in connections ==>
      now[c] == connections[c].(request := now[c].request) &&
      (connections[c].living && connections[c].registered ==> requests <= now[c].request)
    ensures AnswersOk(now, answers, was + 1, rules, requests')
  {
    forall c | c in now && now[c].living && now[c].registered ensures !Heard(now[c], answers[c], was + 1, rules) {
      assert AnswersBelow(answers[c], requests);
    }
  }

  lemma AnswerMore(connection: Connection, answers: seq<Answer>, version: Version, rules: Rules, answer: Answer)
    requires connection.living && connection.registered
    requires connection.acknowledged == version <==> Heard(connection, answers, version, rules)
    ensures answer != Answer(connection.request, true, rules) ==>
      (connection.acknowledged == version <==> Heard(connection, answers + [answer], version, rules))
    ensures answer == Answer(connection.request, true, rules) ==>
      Heard(connection.(acknowledged := version), answers + [answer], version, rules)
  {
  }

  // What each step on a connection keeps

  lemma ToldOk(connection: Connection, link: Link, was: Version, id: nat, queued: bool)
    requires LinkOk(connection, link, was) && connection.registered && IdsBelow(link, id)
    ensures var control := if queued then [PeerControl(id, was + 1)] else [];
            LinkOk(connection.(request := id), link.(up := link.up + control), was + 1)
  {
  }

  lemma RegisteredOk(connection: Connection, link: Link, version: Version, id: nat, queued: bool)
    requires Handshake(connection, link) && !connection.registered && IdsBelow(link, id)
    requires link.down != [] && link.down[0] == Welcome && connection.inWelcome <= version
    ensures var read := connection.(registered := true, acknowledged := connection.inWelcome);
            var rest := link.(down := link.down[1..]);
            var control := if queued then [PeerControl(id, version)] else [];
            if connection.inWelcome == version then LinkOk(read, rest, version)
            else LinkOk(read.(request := id), rest.(up := rest.up + control), version)
  {
    assert NoControl(link.up, 0);
  }

  lemma ReadOneOk(connection: Connection, link: Link, version: Version)
    requires LinkOk(connection, link, version) && connection.registered && link.down != []
    ensures LinkOk(connection, link.(down := link.down[1..]), version)
  {
    var rest := link.(down := link.down[1..]);
    forall p | 0 <= p < |rest.down| && Answers(rest.down[p], connection.request)
      ensures OnlyUnder(rest.down, p, version) && link.applied == Some(version) && NoControl(link.up, 0)
    {
      assert Answers(link.down[p + 1], connection.request);
      assert OnlyUnder(link.down, p + 1, version);
      assert forall i :: p <= i < |rest.down| ==> rest.down[i] == link.down[i + 1];
    }
  }

  /** The answer to the last request settles the connection. */
  lemma ConfirmedOk(connection: Connection, link: Link, version: Version)
    requires LinkOk(connection, link, version) && connection.registered
    requires link.down != [] && Answers(link.down[0], connection.request)
    ensures LinkOk(connection.(acknowledged := version), link.(down := link.down[1..]), version)
  {
    ReadOneOk(connection, link, version);
  }

  lemma HelloOk(connection: Connection, link: Link, version: Version)
    requires LinkOk(connection, link, version) && link.up != [] && link.up[0].Hello?
    ensures LinkOk(connection, Link(link.up[1..], link.down + [Welcome], Some(link.up[0].version)), version)
  {
  }

  lemma RoutedOk(connection: Connection, link: Link, version: Version)
    requires LinkOk(connection, link, version) && link.applied.Some?
    ensures LinkOk(connection, link.(down := link.down + [Message(link.applied.value)]), version)
  {
  }

  lemma AppliedOk(connection: Connection, link: Link, version: Version)
    requires LinkOk(connection, link, version) && link.up != [] && link.up[0].PeerControl?
    ensures LinkOk(connection, Link(link.up[1..], link.down + [PeerStatus(link.up[0].id, true, link.up[0].version)], Some(link.up[0].version)), version)
    ensures LinkOk(connection, Link(link.up[1..], link.down + [PeerStatus(link.up[0].id, false, link.up[0].version)], link.applied), version)
  {
  }

  lemma IdsStay(links: map<ConnectionId, Link>, was: nat, bound: nat)
    requires was <= bound && forall c :: c in links ==> IdsBelow(links[c], was)
    ensures forall c :: c in links ==> IdsBelow(links[c], bound)
  {
  }

  lemma IdsTold(link: Link, id: nat, version: Version, queued: bool)
    requires IdsBelow(link, id)
    ensures var control := if queued then [PeerControl(id, version)] else [];
            IdsBelow(link.(up := link.up + control), id + 1)
  {
  }

  /** A handshake under way does not depend on the client's version. */
  lemma HandshakeStays(connection: Connection, link: Link, was: Version)
    requires LinkOk(connection, link, was) && !connection.registered
    ensures LinkOk(connection, link, was + 1)
  {
  }

  /** One connection changed. */
  lemma OneChanged(connections: map<ConnectionId, Connection>, links: map<ConnectionId, Link>, version: Version,
                   requests: nat, c: ConnectionId, connection: Connection, link: Link, bound: nat)
    requires LinksOk(connections, links, version, requests) && requests <= bound && IdsBelow(link, bound)
    requires connection.living ==> LinkOk(connection, link, version)
    ensures LinksOk(connections[c := connection], links[c := link], version, bound)
  {
    hide LinkOk, IdsBelow;
    IdsStay(links, requests, bound);
  }

  lemma HandshakeBegins(connections: map<ConnectionId, Connection>, links: map<ConnectionId, Link>, version: Version,
                        requests: nat, c: ConnectionId)
    requires LinksOk(connections, links, version, requests)
    ensures LinksOk(connections[c := Connection(true, false, false, version, 0, 0)],
                    links[c := Link([Hello(version)], [], None)], version, requests)
  {
    OneChanged(connections, links, version, requests, c, Connection(true, false, false, version, 0, 0),
               Link([Hello(version)], [], None), requests);
  }

  lemma HandshakeOf(connection: Connection, link: Link, version: Version)
    requires LinkOk(connection, link, version) && !connection.registered
    ensures Handshake(connection, link) && connection.inWelcome <= version
  {
  }

  lemma IdsRead(link: Link, bound: nat)
    requires IdsBelow(link, bound) && link.down != []
    ensures IdsBelow(link.(down := link.down[1..]), bound)
  {
  }

  lemma OnlyUnderHead(connection: Connection, link: Link, version: Version)
    requires LinkOk(connection, link, version) && connection.registered && Current(connection, version)
    requires link.down != [] && link.down[0].Message?
    ensures link.down[0].version == version
  {
  }

  lemma ReadOneMore(read: seq<Version>, late: set<nat>, from: nat, history: seq<Rules>, version: Version, more: Version,
                    comesLate: bool)
    requires ReadOk(read, late, from, history, version) && (comesLate || Same(history, more, version))
    ensures ReadOk(read + [more], if comesLate then late + {|read|} else late, from, history, version)
  {
  }

  // What each step keeps of a connection that ended

  /** As it ends. */
  lemma EndsNow(connection: Connection, link: Link, history: seq<Rules>, version: Version, readOn: bool)
    requires LinkOk(connection, link, version) && connection.registered
    ensures EndedOk(connection.(living := false, readOn := readOn), link, version, history, version)
  {
  }

  lemma EndedReads(connection: Connection, link: Link, until: Version, history: seq<Rules>, version: Version)
    requires EndedOk(connection, link, until, history, version) && link.down != []
    ensures EndedOk(connection, link.(down := link.down[1..]), until, history, version)
    ensures Answers(link.down[0], connection.request) && Same(history, until, version) ==>
      EndedOk(connection.(acknowledged := version), link.(down := link.down[1..]), until, history, version)
  {
    var rest := link.(down := link.down[1..]);
    assert forall i :: 0 <= i < |rest.down| ==> rest.down[i] == link.down[i + 1];
    forall p | 0 <= p < |rest.down| && Answers(rest.down[p], connection.request)
      ensures rest.down[p].under == until && OnlyUnder(rest.down, p, until) && link.applied == Some(until) && NoControl(link.up, 0)
    {
      assert Answers(link.down[p + 1], connection.request);
      assert OnlyUnder(link.down, p + 1, until);
    }
  }

  lemma EndedRouted(connection: Connection, link: Link, until: Version, history: seq<Rules>, version: Version)
    requires EndedOk(connection, link, until, history, version) && link.applied.Some?
    ensures EndedOk(connection, link.(down := link.down + [Message(link.applied.value)]), until, history, version)
  {
  }

  lemma EndedApplied(connection: Connection, link: Link, until: Version, history: seq<Rules>, version: Version)
    requires EndedOk(connection, link, until, history, version) && link.up != [] && link.up[0].PeerControl?
    ensures var status := link.down + [PeerStatus(link.up[0].id, true, link.up[0].version)];
            EndedOk(connection, Link(link.up[1..], status, Some(link.up[0].version)), until, history, version)
    ensures var status := link.down + [PeerStatus(link.up[0].id, false, link.up[0].version)];
            EndedOk(connection, Link(link.up[1..], status, link.applied), until, history, version)
  {
  }

  /** What is read of one that confirmed the rules in effect was routed by them. */
  lemma EndedHead(connection: Connection, link: Link, until: Version, history: seq<Rules>, version: Version)
    requires EndedOk(connection, link, until, history, version) && connection.acknowledged == version
    requires link.down != [] && link.down[0].Message?
    ensures Same(history, link.down[0].version, version)
  {
  }

  /** One connection changed. */
  lemma OneEnded(connections: map<ConnectionId, Connection>, links: map<ConnectionId, Link>, until: map<ConnectionId, Version>,
                 history: seq<Rules>, version: Version, c: ConnectionId, connection: Connection, link: Link,
                 now: map<ConnectionId, Version>)
    requires EndsOk(connections, links, until, history, version)
    requires forall other :: other in until && other != c ==> other in now && now[other] == until[other]
    requires !connection.living && connection.registered ==> c in now && EndedOk(connection, link, now[c], history, version)
    ensures EndsOk(connections[c := connection], links[c := link], now, history, version)
  {
    hide EndedOk;
  }

  lemma OneThatEnded(connections: map<ConnectionId, Connection>, links: map<ConnectionId, Link>,
                     until: map<ConnectionId, Version>, history: seq<Rules>, version: Version, c: ConnectionId)
    requires EndsOk(connections, links, until, history, version)
    requires c in connections && !connections[c].living && connections[c].registered
    ensures c in links && c in until && EndedOk(connections[c], links[c], until[c], history, version)
  {
    hide EndedOk;
  }

  lemma AnsweredUnder(connection: Connection, link: Link, until: Version, history: seq<Rules>, version: Version)
    requires EndedOk(connection, link, until, history, version)
    requires link.down != [] && Answers(link.down[0], connection.request)
    ensures link.down[0].under == until <= version
  {
  }

  /** A change is told to none that ended, and none has confirmed it. */
  lemma EndsStay(connections: map<ConnectionId, Connection>, links: map<ConnectionId, Link>, now: map<ConnectionId, Connection>,
                 nowLinks: map<ConnectionId, Link>, until: map<ConnectionId, Version>, history: seq<Rules>, was: Version, rules: Rules,
                 takes: nat -> bool)
    requires EndsOk(connections, links, until, history, was) && AllTold(connections, links, now, nowLinks, was + 1, takes)
    ensures EndsOk(now, nowLinks, until, history + [rules], was + 1)
  {
    hide Asking;
  }

  /** A message read on a connection. */
  lemma MessageRead(connections: map<ConnectionId, Connection>, links: map<ConnectionId, Link>, until: map<ConnectionId, Version>,
                    history: seq<Rules>, version: Version, requests: nat, c: ConnectionId)
    requires LinksOk(connections, links, version, requests) && EndsOk(connections, links, until, history, version)
    requires c in connections && c in links && connections[c].registered && links[c].down != []
    ensures var now := links[c := links[c].(down := links[c].down[1..])];
            LinksOk(connections, now, version, requests) && EndsOk(connections, now, until, history, version)
    ensures links[c].down[0].Message? && (connections[c].living ==> Current(connections[c], version)) &&
            (connections[c].living || connections[c].acknowledged == version) ==>
      Same(history, links[c].down[0].version, version)
  {
    hide LinkOk, IdsBelow, EndsOk, EndedOk, Same;
    var connection, link, rest := connections[c], links[c], links[c].(down := links[c].down[1..]);
    IdsRead(link, requests);
    if connection.living {
      ReadOneOk(connection, link, version);
      if link.down[0].Message? && Current(connection, version) {
        OnlyUnderHead(connection, link, version);
        SameSelf(history, version);
      }
    } else {
      OneThatEnded(connections, links, until, history, version, c);
      EndedReads(connection, link, until[c], history, version);
      if link.down[0].Message? && connection.acknowledged == version {
        EndedHead(connection, link, until[c], history, version);
      }
    }
    OneChanged(connections, links, version, requests, c, connection, rest, requests);
    OneEnded(connections, links, until, history, version, c, connection, rest, until);
    assert connections[c := connection] == connections;
  }

  /** The answer that confirms the rules in effect read on a connection. */
  lemma AnswerConfirms(connections: map<ConnectionId, Connection>, links: map<ConnectionId, Link>, until: map<ConnectionId, Version>,
                       history: seq<Rules>, version: Version, requests: nat, c: ConnectionId, rules: Rules)
    requires LinksOk(connections, links, version, requests) && EndsOk(connections, links, until, history, version)
    requires c in connections && c in links && connections[c].registered && links[c].down != []
    requires Answers(links[c].down[0], connections[c].request) && |history| == version + 1 && history[version] == rules
    requires links[c].down[0].under < |history| ==> history[links[c].down[0].under] == rules
    ensures var now := connections[c := connections[c].(acknowledged := version)];
            var rest := links[c := links[c].(down := links[c].down[1..])];
            LinksOk(now, rest, version, requests) && EndsOk(now, rest, until, history, version)
  {
    hide LinkOk, IdsBelow, EndedOk, EndsOk;
    var connection, link, rest := connections[c], links[c], links[c].(down := links[c].down[1..]);
    IdsRead(link, requests);
    if connection.living {
      ConfirmedOk(connection, link, version);
    } else {
      OneThatEnded(connections, links, until, history, version, c);
      EndedReads(connection, link, until[c], history, version);
      AnsweredUnder(connection, link, until[c], history, version);
    }
    OneChanged(connections, links, version, requests, c, connection.(acknowledged := version), rest, requests);
    OneEnded(connections, links, until, history, version, c, connection.(acknowledged := version), rest, until);
  }

  /** A connection's end told. */
  lemma OneGoes(connections: map<ConnectionId, Connection>, links: map<ConnectionId, Link>, until: map<ConnectionId, Version>,
                history: seq<Rules>, version: Version, requests: nat, c: ConnectionId, readOn: bool)
    requires LinksOk(connections, links, version, requests) && EndsOk(connections, links, until, history, version)
    requires c in connections && c in links && connections[c].living && |history| == version + 1
    ensures var now := connections[c := connections[c].(living := false, readOn := readOn)];
            LinksOk(now, links, version, requests) && EndsOk(now, links, until[c := version], history, version)
  {
    hide LinkOk, IdsBelow, EndedOk, EndsOk;
    if connections[c].registered {
      EndsNow(connections[c], links[c], history, version, readOn);
    }
    var ended := connections[c].(living := false, readOn := readOn);
    OneChanged(connections, links, version, requests, c, ended, links[c], requests);
    OneEnded(connections, links, until, history, version, c, ended, links[c], until[c := version]);
    assert links[c := links[c]] == links;
  }

  lemma LinksKeys(connections: map<ConnectionId, Connection>, links: map<ConnectionId, Link>, version: Version, requests: nat)
    requires LinksOk(connections, links, version, requests)
    ensures links.Keys == connections.Keys
  {
  }

  lemma NothingQueuedYet(read: seq<Version>, late: set<nat>, history: seq<Rules>, version: Version)
    ensures ReadOk(read, late, |read|, history, version)
  {
  }

  lemma SameSelf(history: seq<Rules>, version: Version)
    ensures Same(history, version, version)
  {
  }

  lemma IdsWelcome(link: Link, now: Link, bound: nat)
    requires IdsBelow(link, bound) && link.up != [] && now.up == link.up[1..] && now.down == link.down + [Welcome]
    ensures IdsBelow(now, bound)
  {
  }

  lemma IdsApplied(link: Link, now: Link, bound: nat)
    requires IdsBelow(link, bound) && link.up != [] && link.up[0].PeerControl? && now.up == link.up[1..]
    requires exists accepts, under :: now.down == link.down + [PeerStatus(link.up[0].id, accepts, under)]
    ensures IdsBelow(now, bound)
  {
  }

  lemma IdsRouted(link: Link, bound: nat)
    requires IdsBelow(link, bound) && link.applied.Some?
    ensures IdsBelow(link.(down := link.down + [Message(link.applied.value)]), bound)
  {
  }

  lemma HelloNot(connection: Connection, link: Link, until: Version, history: seq<Rules>, version: Version)
    requires EndedOk(connection, link, until, history, version) && link.up != []
    ensures !link.up[0].Hello?
  {
  }

  /** What is queued on a connection for a request: nothing where it takes no more. */
  function Control(takes: nat -> bool, id: nat, version: Version): seq<Written> {
    if takes(id) then [PeerControl(id, version)] else []
  }

  /** A connection before and after a change is told: only a living, registered
      one is told, once, under a new request. */
  ghost predicate Told(connection: Connection, link: Link, now: Connection, nowLink: Link, version: Version,
                       takes: nat -> bool)
  {
    if connection.living && connection.registered then
      && now == connection.(request := now.request)
      && nowLink == link.(up := link.up + Control(takes, now.request, version))
    else
      now == connection && nowLink == link
  }

  lemma ToldBySending(connection: Connection, link: Link, id: nat, version: Version, takes: nat -> bool)
    requires connection.living && connection.registered
    ensures Told(connection, link, connection.(request := id), link.(up := link.up + Control(takes, id, version)), version, takes)
  {
  }

  lemma NotTold(connections: map<ConnectionId, Connection>, links: map<ConnectionId, Link>, c: ConnectionId,
                version: Version, takes: nat -> bool)
    requires c in connections && c in links && !(connections[c].living && connections[c].registered)
    ensures Told(connections[c], links[c], connections[c], links[c], version, takes)
  {
  }

  ghost predicate AllTold(connections: map<ConnectionId, Connection>, links: map<ConnectionId, Link>,
                          now: map<ConnectionId, Connection>, nowLinks: map<ConnectionId, Link>, version: Version, takes: nat -> bool)
  {
    && connections.Keys == links.Keys == now.Keys == nowLinks.Keys
    && forall c :: c in connections ==> Told(connections[c], links[c], now[c], nowLinks[c], version, takes)
  }

  /** Some of the connections have been told of the version after `was`. */
  ghost predicate Telling(connections: map<ConnectionId, Connection>, links: map<ConnectionId, Link>,
                          now: map<ConnectionId, Connection>, nowLinks: map<ConnectionId, Link>,
                          left: set<ConnectionId>, was: Version, requests: nat, takes: nat -> bool)
  {
    && links.Keys == connections.Keys == now.Keys == nowLinks.Keys && left <= connections.Keys
    && (forall c :: c in now ==> IdsBelow(nowLinks[c], requests))
    && (forall c :: c in now && now[c].living ==> LinkOk(now[c], nowLinks[c], if c in left then was else was + 1))
    && (forall c :: c in left ==> now[c] == connections[c] && nowLinks[c] == links[c])
    && (forall c :: c in now && c !in left ==> Told(connections[c], links[c], now[c], nowLinks[c], was + 1, takes))
  }

  lemma TellingOne(connections: map<ConnectionId, Connection>, links: map<ConnectionId, Link>,
                   now: map<ConnectionId, Connection>, nowLinks: map<ConnectionId, Link>,
                   left: set<ConnectionId>, was: Version, requests: nat, c: ConnectionId, id: nat, takes: nat -> bool)
    requires Telling(connections, links, now, nowLinks, left, was, requests, takes) && c in left && requests <= id
    requires now[c].living && now[c].registered
    ensures Telling(connections, links, now[c := now[c].(request := id)],
                    nowLinks[c := nowLinks[c].(up := nowLinks[c].up + Control(takes, id, was + 1))], left - {c}, was, id + 1, takes)
  {
    hide LinkOk, IdsBelow, Told;
    IdsStay(nowLinks, requests, id);
    IdsStay(nowLinks, requests, id + 1);
    ToldOk(now[c], nowLinks[c], was, id, takes(id));
    ToldBySending(now[c], nowLinks[c], id, was + 1, takes);
    IdsTold(nowLinks[c], id, was + 1, takes(id));
  }

  lemma TellingNot(connections: map<ConnectionId, Connection>, links: map<ConnectionId, Link>,
                   now: map<ConnectionId, Connection>, nowLinks: map<ConnectionId, Link>,
                   left: set<ConnectionId>, was: Version, requests: nat, c: ConnectionId, takes: nat -> bool)
    requires Telling(connections, links, now, nowLinks, left, was, requests, takes) && c in left
    requires !now[c].living || !now[c].registered
    ensures Telling(connections, links, now, nowLinks, left - {c}, was, requests, takes)
  {
    hide LinkOk, IdsBelow, Told;
    NotTold(connections, links, c, was + 1, takes);
    if now[c].living {
      HandshakeStays(now[c], nowLinks[c], was);
    }
  }

  lemma TellingBegins(connections: map<ConnectionId, Connection>, links: map<ConnectionId, Link>, was: Version,
                      requests: nat, takes: nat -> bool)
    requires LinksOk(connections, links, was, requests)
    ensures Telling(connections, links, connections, links, connections.Keys, was, requests, takes)
  {
    hide LinkOk, IdsBelow, Told;
  }

  lemma TellingEnds(connections: map<ConnectionId, Connection>, links: map<ConnectionId, Link>,
                    now: map<ConnectionId, Connection>, nowLinks: map<ConnectionId, Link>, was: Version, requests: nat, takes: nat -> bool)
    requires Telling(connections, links, now, nowLinks, {}, was, requests, takes)
    ensures LinksOk(now, nowLinks, was + 1, requests) && AllTold(connections, links, now, nowLinks, was + 1, takes)
  {
    hide LinkOk, IdsBelow, Told;
  }

  lemma TellingKeys(connections: map<ConnectionId, Connection>, links: map<ConnectionId, Link>,
                    now: map<ConnectionId, Connection>, nowLinks: map<ConnectionId, Link>, left: set<ConnectionId>,
                    was: Version, requests: nat, takes: nat -> bool)
    requires Telling(connections, links, now, nowLinks, left, was, requests, takes)
    ensures left <= now.Keys && left <= nowLinks.Keys
  {
  }

  /** A welcome of the version read: the connection is confirmed. */
  lemma RegisteredNow(connections: map<ConnectionId, Connection>, links: map<ConnectionId, Link>, version: Version,
                      requests: nat, c: ConnectionId)
    requires LinksOk(connections, links, version, requests) && c in connections
    requires connections[c].living && !connections[c].registered && connections[c].inWelcome == version
    requires links[c].down != [] && links[c].down[0] == Welcome
    ensures LinksOk(connections[c := connections[c].(registered := true, acknowledged := version)],
                    links[c := links[c].(down := links[c].down[1..])], version, requests)
  {
    hide LinkOk, IdsBelow, Handshake;
    var connection, link, rest := connections[c], links[c], links[c].(down := links[c].down[1..]);
    HandshakeOf(connection, link, version);
    IdsRead(link, requests);
    RegisteredOk(connection, link, version, requests, false);
    OneChanged(connections, links, version, requests, c, connection.(registered := true, acknowledged := version), rest, requests);
  }

  /** An older one: the change made meanwhile is told. */
  lemma RegisteredTold(connections: map<ConnectionId, Connection>, links: map<ConnectionId, Link>, version: Version,
                       requests: nat, c: ConnectionId, id: nat, takes: nat -> bool)
    requires LinksOk(connections, links, version, requests) && requests <= id && c in connections
    requires connections[c].living && !connections[c].registered && connections[c].inWelcome != version
    requires links[c].down != [] && links[c].down[0] == Welcome
    ensures var read := connections[c].(registered := true, acknowledged := connections[c].inWelcome);
            var rest := links[c].(down := links[c].down[1..]);
            var told, out := read.(request := id), rest.(up := rest.up + Control(takes, id, version));
            LinksOk(connections[c := told], links[c := out], version, id + 1) && Told(read, rest, told, out, version, takes)
  {
    hide LinkOk, IdsBelow, Handshake, Told;
    var connection, link, rest := connections[c], links[c], links[c].(down := links[c].down[1..]);
    var read := connection.(registered := true, acknowledged := connection.inWelcome);
    HandshakeOf(connection, link, version);
    IdsStay(map[c := link], requests, id);
    IdsRead(link, id);
    RegisteredOk(connection, link, version, id, takes(id));
    ToldBySending(read, rest, id, version, takes);
    IdsTold(rest, id, version, takes(id));
    OneChanged(connections, links, version, requests, c, read.(request := id),
               rest.(up := rest.up + Control(takes, id, version)), id + 1);
  }

  /** A change told: none of the connections has confirmed it yet. */
  lemma AnswersTold(connections: map<ConnectionId, Connection>, links: map<ConnectionId, Link>, now: map<ConnectionId, Connection>,
                    nowLinks: map<ConnectionId, Link>, answers: map<ConnectionId, seq<Answer>>, was: Version, before: Rules,
                    requests: nat, rules: Rules, requests': nat, takes: nat -> bool)
    requires LinksOk(connections, links, was, requests) && AnswersOk(connections, answers, was, before, requests)
    requires AllTold(connections, links, now, nowLinks, was + 1, takes) && requests <= requests'
    requires forall c :: c in now && now[c].living && now[c].registered ==> requests <= now[c].request < requests'
    ensures AnswersOk(now, answers, was + 1, rules, requests')
  {
    hide AnswersOk, IdsBelow, Handshake, Asking, Settled;
    NoneAnswers(connections, answers, was, before, requests, now, rules, requests');
  }

  /** One answer more, read on a connection. */
  lemma AnswerRead(connections: map<ConnectionId, Connection>, links: map<ConnectionId, Link>, answers: map<ConnectionId, seq<Answer>>,
                   version: Version, rules: Rules, requests: nat, c: ConnectionId, references: nat, accepted: bool, said: Rules)
    requires LinksOk(connections, links, version, requests) && AnswersOk(connections, answers, version, rules, requests)
    requires c in connections && links[c].down != [] && links[c].down[0].PeerStatus? && links[c].down[0].references == references
    requires connections[c].registered
    ensures var confirms := accepted && references == connections[c].request && said == rules;
            AnswersOk(if confirms then connections[c := connections[c].(acknowledged := version)] else connections,
                      answers[c := answers[c] + [Answer(references, accepted, said)]], version, rules, requests)
  {
    hide AnswersOk, LinkOk;
    AnswersHave(connections, answers, version, rules, requests, c);
    var connection, more := connections[c], answers[c] + [Answer(references, accepted, said)];
    assert references < requests by { assert IdsBelow(links[c], requests); }
    var confirms := accepted && references == connection.request && said == rules;
    if connection.living {
      AnswerMore(connection, answers[c], version, rules, Answer(references, accepted, said));
    }
    var now := if confirms then connection.(acknowledged := version) else connection;
    OneAnswers(connections, answers, version, rules, requests, c, now, more, requests);
    assert connections[c := connection] == connections;
  }

  lemma AnswersHave(connections: map<ConnectionId, Connection>, answers: map<ConnectionId, seq<Answer>>, version: Version,
                    rules: Rules, requests: nat, c: ConnectionId)
    requires AnswersOk(connections, answers, version, rules, requests) && c in connections
    ensures c in answers && AnswersBelow(answers[c], requests)
    ensures connections[c].living && connections[c].registered ==>
      (connections[c].acknowledged == version <==> Heard(connections[c], answers[c], version, rules))
  {
    hide Heard, AnswersBelow;
  }

  class Client {
    const takes: nat -> bool  // whether a request is queued on its connection

    var version: Version
    var rules: Rules
    var confirmed: bool
    var enqueued: nat
    var dequeued: nat
    var confirmedEnqueued: nat
    var incoming: seq<nat>
    var connections: map<ConnectionId, Connection>
    var requests: nat

    // The world: the channels and far ends, and what each message read was routed under.
    ghost var links: map<ConnectionId, Link>
    ghost var read: seq<Version>
    ghost var late: set<nat>
    ghost var history: seq<Rules>                // the rules of each version
    ghost var until: map<ConnectionId, Version>  // the version when a connection ended
    ghost var answers: map<ConnectionId, seq<Answer>>  // what was read on each of changes told
    ghost var changedAt: nat                     // the messages queued when a connection or the rules last changed
    ghost var current: bool                      // and whether that was not in a shutdown

    ghost predicate Counted()
      reads `incoming, `dequeued, `enqueued, `read, `confirmedEnqueued, `requests
    {
      |incoming| + dequeued == enqueued == |read| && confirmedEnqueued <= enqueued && requests > 0
    }

    /** All that holds whether or not the last change has been looked at. */
    ghost predicate Sound()
      reads `incoming, `dequeued, `enqueued, `read, `confirmedEnqueued, `requests, `connections, `links, `version, `confirmed
      reads `late, `history, `rules, `until, `answers
    {
      && Counted()
      && LinksOk(connections, links, version, requests)
      && (confirmed ==> AllCurrent(connections, version))
      && (confirmed ==> ReadOk(read, late, confirmedEnqueued, history, version))
      && |history| == version + 1 && history[version] == rules
      && EndsOk(connections, links, until, history, version)
      && AnswersOk(connections, answers, version, rules, requests)
    }

    ghost predicate Valid()
      reads this
    {
      Sound() && confirmedEnqueued <= changedAt <= enqueued && (current && HeardAll(connections, answers, version, rules) ==> confirmed)
    }

    /** Every living connection's multiplexer has said that it has the rules in effect. */
    ghost predicate AllHeard()
      reads this
    {
      HeardAll(connections, answers, version, rules)
    }

    predicate AllConfirmed()
      reads `connections, `version
    {
      forall c :: c in connections && connections[c].living ==>
        connections[c].registered && connections[c].acknowledged == version
    }

    predicate Acknowledged()
      reads this
    {
      confirmed && dequeued >= confirmedEnqueued && AllConfirmed()
    }

    /** On no living connection is anything on its way that was routed under
        another version, and no far end routes under another. */
    ghost predicate NothingOlderInFlight()
      reads this
    {
      forall c :: c in connections && connections[c].living ==> c in links && Settled(links[c], version)
    }

    /** Everything in the queue was routed by the rules in effect. */
    ghost predicate NothingOlderQueued()
      reads this
    {
      forall i :: dequeued <= i < |read| ==> Same(history, read[i], version)
    }

    /** Nothing in the queue came on a connection read on after its end was told that
        had not confirmed the version. */
    ghost predicate NothingLateQueued()
      reads this
    {
      forall i :: dequeued <= i < |read| ==> i !in late
    }

    constructor (takes: nat -> bool)
      ensures Valid() && version == 0 && connections == map[] && links == map[] && read == [] && dequeued == 0 && !confirmed
      ensures history == [0] && until == map[] && this.takes == takes
    {
      this.takes := takes;
      version, confirmed, enqueued, dequeued, confirmedEnqueued := 0, false, 0, 0, 0;
      incoming, connections, requests := [], map[], 1;
      links, read, late := map[], [], {};
      rules, history, until := 0, [0], map[];
      answers, changedAt, current := map[], 0, false;
    }

    // The client's operations

    method AreAllConfirmed() returns (all: bool)
      ensures all == AllConfirmed()
      ensures all <==> forall c :: c in connections && connections[c].living ==>
        connections[c].registered && connections[c].acknowledged == version
    {
      var left := connections.Keys;
      while left != {}
        invariant left <= connections.Keys
        invariant forall c :: c in connections && c !in left && connections[c].living ==>
          connections[c].registered && connections[c].acknowledged == version
        decreases |left|
      {
        var c :| c in left;
        if connections[c].living && (!connections[c].registered || connections[c].acknowledged != version) {
          return false;
        }
        left := left - {c};
      }
      return true;
    }

    lemma AsManyAsRead()
      requires Valid()
      ensures enqueued == |read| && confirmedEnqueued <= enqueued
    {
      hide LinksOk, ReadOk, EndsOk, AnswersOk, HeardAll, AllCurrent;
    }

    lemma EverythingHeard()
      requires Valid() && current && AllConfirmed()
      ensures confirmed
    {
      hide LinksOk, ReadOk, EndsOk, AnswersOk, HeardAll, AllCurrent, Client.AllConfirmed;
      ConfirmedIsHeard();
    }

    /** What the connections count as is what was heard. */
    lemma ConfirmedIsHeard()
      requires Sound()
      ensures AllConfirmed() <==> HeardAll(connections, answers, version, rules)
      ensures AllConfirmed() ==> AllCurrent(connections, version)
    {
      hide LinkOk, IdsBelow, EndsOk, ReadOk;
    }

    method UpdateConfirmation()
      requires Sound()
      modifies `confirmed, `confirmedEnqueued, `changedAt, `current
      ensures Valid() && confirmed == AllConfirmed() && current && changedAt == enqueued
      ensures old(confirmed) && confirmed ==> confirmedEnqueued == old(confirmedEnqueued)
      ensures !old(confirmed) && confirmed ==> confirmedEnqueued == enqueued
    {
      hide LinksOk, ReadOk, EndsOk, AnswersOk, HeardAll, AllCurrent, Client.AllConfirmed;
      ConfirmedIsHeard();
      NothingQueuedYet(read, late, history, version);
      var all := AreAllConfirmed();
      current, changedAt := true, enqueued;
      if !all {
        confirmed := false;
      } else if !confirmed {
        confirmed := true;
        confirmedEnqueued := enqueued;
      }
    }

    /** What the program is told by: nothing older on its way on any living
        connection, and nothing older in the queue unless something there came on a
        connection read on that had not confirmed the change. */
    method RoutingAcknowledged() returns (acknowledged: bool)
      requires Valid()
      ensures acknowledged == Acknowledged()
      ensures acknowledged ==> NothingOlderInFlight()
      ensures acknowledged && NothingLateQueued() ==> NothingOlderQueued()
      ensures acknowledged ==> AllHeard()
      ensures AllHeard() && current && dequeued >= changedAt ==> acknowledged
    {
      var all := AreAllConfirmed();
      return confirmed && dequeued >= confirmedEnqueued && all;
    }

    /** Draws an id and queues the change on a connection, where it takes it. */
    method SendRouting(c: ConnectionId) returns (id: nat)
      requires c in connections && c in links && requests > 0
      modifies `requests, `connections, `links
      ensures id >= old(requests) && requests == id + 1
      ensures connections == old(connections)[c := old(connections[c]).(request := id)]
      ensures links == old(links)[c := old(links[c]).(up := old(links[c].up) + Control(takes, id, version))]
    {
      id :| id >= requests;
      requests := id + 1;
      connections := connections[c := connections[c].(request := id)];
      links := links[c := links[c].(up := links[c].up + Control(takes, id, version))];
    }

    method RoutingChanged(now: Rules)
      requires Valid()
      modifies `version, `rules, `history, `confirmed, `confirmedEnqueued, `connections, `links, `requests, `changedAt, `current
      ensures Valid() && current && changedAt == enqueued && answers == old(answers)
      ensures version == old(version) + 1 && rules == now && confirmed == AllConfirmed()
      ensures history == old(history) + [now]
      ensures AllTold(old(connections), old(links), connections, links, version, takes)
      ensures forall c :: c in connections && connections[c].living && connections[c].registered ==>
        old(requests) <= connections[c].request < requests
      ensures confirmed ==> confirmedEnqueued == enqueued
    {
      hide LinksOk, AllCurrent, ReadOk, AllConfirmed, AllTold, EndsOk, AnswersOk, HeardAll;
      version := version + 1;
      rules := now;
      history := history + [now];
      confirmed := false;
      TellAll(old(version));
      AnswersTold(old(connections), old(links), connections, links, answers, old(version), old(rules), old(requests), now, requests, takes);
      EndsStay(old(connections), old(links), connections, links, until, old(history), old(version), now, takes);
      UpdateConfirmation();
    }

    method TellAll(ghost was: Version)
      requires LinksOk(connections, links, was, requests) && version == was + 1 && requests > 0
      modifies `connections, `links, `requests
      ensures LinksOk(connections, links, version, requests) && requests >= old(requests)
      ensures AllTold(old(connections), old(links), connections, links, version, takes)
      ensures forall c :: c in connections && connections[c].living && connections[c].registered ==>
        old(requests) <= connections[c].request < requests
    {
      hide LinksOk, AllTold, Telling;
      TellingBegins(connections, links, was, requests, takes);
      ghost var connections0, links0 := connections, links;
      var left := connections.Keys;
      while left != {}
        invariant Telling(connections0, links0, connections, links, left, was, requests, takes) && requests >= old(requests)
        invariant forall d :: d in connections && d !in left && connections[d].living && connections[d].registered ==>
          old(requests) <= connections[d].request < requests
        decreases |left|
      {
        var c :| c in left;
        TellingKeys(connections0, links0, connections, links, left, was, requests, takes);
        ghost var connections1, links1, requests1 := connections, links, requests;
        if connections[c].living && connections[c].registered {
          var id := SendRouting(c);
          TellingOne(connections0, links0, connections1, links1, left, was, requests1, c, id, takes);
        } else {
          TellingNot(connections0, links0, connections, links, left, was, requests, c, takes);
        }
        left := left - {c};
      }
      TellingEnds(connections0, links0, connections, links, was, requests, takes);
    }

    /** The multiplexer's answer to a change, the frame read next on a connection. */
    method OnPeerStatus(c: ConnectionId, references: nat, accepted: bool, ghost under: Version, said: Rules)
      requires Valid() && c in connections && connections[c].registered
      requires connections[c].living || connections[c].readOn
      requires links[c].down != [] && links[c].down[0] == PeerStatus(references, accepted, under)
      requires under < |history| ==> said == history[under]
      modifies `confirmed, `confirmedEnqueued, `connections, `links, `answers, `changedAt, `current
      ensures Valid() && answers == old(answers)[c := old(answers[c]) + [Answer(references, accepted, said)]]
      ensures var confirms := accepted && references == old(connections[c].request) && said == rules;
              && connections == (if confirms then old(connections)[c := old(connections[c]).(acknowledged := version)]
                                 else old(connections))
              && current == (old(current) || confirms) && changedAt == (if confirms then enqueued else old(changedAt))
      ensures links == old(links)[c := old(links[c]).(down := old(links[c].down[1..]))]
    {
      hide LinksOk, ReadOk, AllConfirmed, EndsOk, AnswersOk, HeardAll, AllCurrent, Same;
      LinksKeys(connections, links, version, requests);
      ghost var links0, answers0 := links, answers;
      AnswerRead(connections, links, answers, version, rules, requests, c, references, accepted, said);
      AnswersHave(connections, answers, version, rules, requests, c);
      links := links[c := links[c].(down := links[c].down[1..])];
      answers := answers[c := answers[c] + [Answer(references, accepted, said)]];
      if accepted && references == connections[c].request && said == rules {
        AnswerConfirms(connections, links0, until, history, version, requests, c, rules);
        if confirmed {
          OneCurrent(connections, version, c, connections[c].(acknowledged := version));
        }
        connections := connections[c := connections[c].(acknowledged := version)];
        UpdateConfirmation();
      } else {
        MessageRead(connections, links0, until, history, version, requests, c);
        HeardSame(connections, answers, answers0, version, rules, requests);
      }
    }

    /** The socket is up: the welcome about to be written carries the version. */
    method Connected(c: ConnectionId)
      requires Valid() && c !in connections
      modifies `connections, `links, `answers
      ensures Valid() && answers == old(answers)[c := []]
      ensures connections == old(connections)[c := Connection(true, false, false, version, 0, 0)]
      ensures links == old(links)[c := Link([Hello(version)], [], None)]
    {
      hide LinksOk, EndsOk, AnswersOk, ReadOk, AllCurrent, HeardAll;
      if confirmed {
        OneCurrent(connections, version, c, Connection(true, false, false, version, 0, 0));
      }
      HandshakeBegins(connections, links, version, requests, c);
      OneAnswers(connections, answers, version, rules, requests, c, Connection(true, false, false, version, 0, 0), [], requests);
      OneEnded(connections, links, until, history, version, c, Connection(true, false, false, version, 0, 0),
               Link([Hello(version)], [], None), until);
      connections := connections[c := Connection(true, false, false, version, 0, 0)];
      links := links[c := Link([Hello(version)], [], None)];
      answers := answers[c := []];
      NotHeardAll(connections, answers, version, rules, c);
    }

    /** The multiplexer's welcome read: a change made meanwhile goes out now. */
    method Registered(c: ConnectionId)
      requires Valid() && c in connections && connections[c].living && !connections[c].registered
      requires links[c].down != [] && links[c].down[0] == Welcome
      modifies `confirmed, `confirmedEnqueued, `connections, `links, `requests, `changedAt, `current
      ensures Valid() && confirmed == AllConfirmed() && current && changedAt == enqueued
      ensures connections.Keys == old(connections.Keys) && links.Keys == old(links.Keys)
      ensures forall other :: other in connections && other != c ==>
        connections[other] == old(connections[other]) && links[other] == old(links[other])
      ensures var was := old(connections[c]).(registered := true, acknowledged := old(connections[c].inWelcome));
              var rest := old(links[c]).(down := old(links[c].down[1..]));
              if was.inWelcome == version then connections[c] == was && links[c] == rest
              else Told(was, rest, connections[c], links[c], version, takes)
    {
      hide LinksOk, ReadOk, AllConfirmed, Told, EndsOk, AnswersOk, HeardAll, AllCurrent;
      LinksKeys(connections, links, version, requests);
      if connections[c].inWelcome == version {
        WelcomedNow(c);
      } else {
        WelcomedOlder(c);
      }
      UpdateConfirmation();
    }

    /** A welcome that carried the version. */
    method WelcomedNow(c: ConnectionId)
      requires Valid() && c in connections && c in links && connections[c].living && !connections[c].registered
      requires links[c].down != [] && links[c].down[0] == Welcome && connections[c].inWelcome == version
      modifies `connections, `links
      ensures Sound()
      ensures connections == old(connections)[c := old(connections[c]).(registered := true, acknowledged := version)]
      ensures links == old(links)[c := old(links[c]).(down := old(links[c].down[1..]))]
    {
      hide LinksOk, ReadOk, EndsOk, AnswersOk, HeardAll, AllCurrent;
      RegisteredNow(connections, links, version, requests, c);
      OneSilent(connections, answers, version, rules, requests, c,
                connections[c].(registered := true, acknowledged := version), requests);
      if confirmed {
        OneCurrent(connections, version, c, connections[c].(registered := true, acknowledged := version));
      }
      ghost var was, wasLinks := connections, links;
      links := links[c := links[c].(down := links[c].down[1..])];
      connections := connections[c := connections[c].(registered := true, acknowledged := connections[c].inWelcome)];
      OneEnded(was, wasLinks, until, history, version, c, connections[c], links[c], until);
    }

    /** One that carried an older version: the change goes out. */
    method WelcomedOlder(c: ConnectionId)
      requires Valid() && c in connections && c in links && connections[c].living && !connections[c].registered
      requires links[c].down != [] && links[c].down[0] == Welcome && connections[c].inWelcome != version
      modifies `connections, `links, `requests
      ensures Sound() && connections.Keys == old(connections.Keys) && links.Keys == old(links.Keys)
      ensures forall other :: other in connections && other != c ==>
        connections[other] == old(connections[other]) && links[other] == old(links[other])
      ensures var was := old(connections[c]).(registered := true, acknowledged := old(connections[c].inWelcome));
              Told(was, old(links[c]).(down := old(links[c].down[1..])), connections[c], links[c], version, takes)
    {
      hide LinksOk, ReadOk, EndsOk, Told, AnswersOk, HeardAll, AllCurrent;
      ghost var was, wasLinks, wasRequests := connections, links, requests;
      LinksKeys(connections, links, version, requests);
      if confirmed {
        IsCurrent(connections, version, c);
        assert false;
      }
      links := links[c := links[c].(down := links[c].down[1..])];
      connections := connections[c := connections[c].(registered := true, acknowledged := connections[c].inWelcome)];
      var id := SendRouting(c);
      OneSilent(was, answers, version, rules, wasRequests, c, connections[c], requests);
      RegisteredTold(was, wasLinks, version, wasRequests, c, id, takes);
      assert connections == was[c := connections[c]] && links == wasLinks[c := links[c]];
      OneEnded(was, wasLinks, until, history, version, c, connections[c], links[c], until);
    }

    /** A connection's end told; after a failed write it is read on, to its
        multiplexer's end. */
    method ConnectionDestroyed(c: ConnectionId, failedWrite: bool, shutsDown: bool)
      requires Valid() && c in connections && connections[c].living
      modifies `confirmed, `confirmedEnqueued, `connections, `until, `changedAt, `current
      ensures !shutsDown ==> current && changedAt == enqueued
      ensures Valid() && until == old(until)[c := version]
      ensures var readOn := failedWrite && old(connections[c].registered);
              connections == old(connections)[c := old(connections[c]).(living := false, readOn := readOn)]
      ensures !shutsDown ==> confirmed == AllConfirmed()
      ensures !shutsDown && confirmed ==> confirmedEnqueued == if old(confirmed) then old(confirmedEnqueued) else enqueued
    {
      hide LinksOk, ReadOk, EndsOk, AnswersOk, HeardAll, AllCurrent, Client.AllConfirmed, Client.Sound;
      NoLongerLives(c, failedWrite && connections[c].registered);
      if !shutsDown {
        UpdateConfirmation();
      } else {
        current := false;
      }
    }

    method NoLongerLives(c: ConnectionId, readOn: bool)
      requires Valid() && c in connections && connections[c].living
      modifies `connections, `until
      ensures Sound() && until == old(until)[c := version]
      ensures connections == old(connections)[c := old(connections[c]).(living := false, readOn := readOn)]
    {
      hide LinksOk, ReadOk, EndsOk, AnswersOk, HeardAll, AllCurrent;
      LinksKeys(connections, links, version, requests);
      ghost var ended := connections[c].(living := false, readOn := readOn);
      OneGoes(connections, links, until, history, version, requests, c, readOn);
      OneSilent(connections, answers, version, rules, requests, c, ended, requests);
      if confirmed {
        OneCurrent(connections, version, c, ended);
      }
      connections := connections[c := connections[c].(living := false, readOn := readOn)];
      until := until[c := version];
    }

    /** A message read, and queued unless it is dropped: a copy of one seen, or the
        queue full. */
    method HandleMessage(c: ConnectionId, message: nat, taken: bool)
      requires Valid() && c in connections && connections[c].registered
      requires connections[c].living || connections[c].readOn
      requires links[c].down != [] && links[c].down[0].Message?
      modifies `links, `read, `late, `incoming, `enqueued
      ensures Valid()
      ensures links == old(links)[c := old(links[c]).(down := old(links[c].down[1..]))]
      ensures incoming == old(incoming) + if taken then [message] else []
      ensures read == old(read) + if taken then [old(links[c].down[0].version)] else []
      ensures late == old(late) + if taken && !connections[c].living && connections[c].acknowledged != version then {|old(read)|} else {}
    {
      hide LinksOk, ReadOk, EndsOk, Same, AnswersOk, HeardAll, AllCurrent, Current;
      LinksKeys(connections, links, version, requests);
      ghost var connection, link := connections[c], links[c];
      MessageRead(connections, links, until, history, version, requests, c);
      links := links[c := link.(down := link.down[1..])];
      if taken {
        if confirmed {
          CurrentIs(connections, version, c);
        }
        Enqueue(message, link.down[0].version, ComesLate(connection));
      }
    }

    /** A message in the queue, and what it was routed under. */
    method Enqueue(message: nat, ghost under: Version, ghost comesLate: bool)
      requires Valid() && (confirmed ==> comesLate || Same(history, under, version))
      modifies `read, `late, `incoming, `enqueued
      ensures Valid() && incoming == old(incoming) + [message] && read == old(read) + [under]
      ensures late == if comesLate then old(late) + {|old(read)|} else old(late)
    {
      hide LinksOk, ReadOk, EndsOk, Same, AnswersOk, HeardAll, AllCurrent;
      if confirmed {
        ReadOneMore(read, late, confirmedEnqueued, history, version, under, comesLate);
      }
      late := if comesLate then late + {|read|} else late;
      read := read + [under];
      incoming := incoming + [message];
      enqueued := enqueued + 1;
    }

    /** Whether what is read on a connection may be older than a change acknowledged:
        its end was told, and it had not confirmed the version. */
    predicate ComesLate(connection: Connection)
      reads `version
    {
      !connection.living && connection.acknowledged != version
    }

    method NextIncomingMessage() returns (message: nat)
      requires Valid() && incoming != []
      modifies `incoming, `dequeued
      ensures Valid() && message == old(incoming[0]) && incoming == old(incoming[1..]) && dequeued == old(dequeued) + 1
    {
      message := incoming[0];
      incoming := incoming[1..];
      dequeued := dequeued + 1;
    }

    // The multiplexers' steps

    /** A multiplexer takes the client's welcome, and writes its own. */
    ghost method MultiplexerWelcomes(c: ConnectionId)
      requires Valid() && c in connections && links[c].up != [] && links[c].up[0].Hello?
      modifies `links
      ensures Valid()
      ensures var link := old(links[c]);
              links == old(links)[c := Link(link.up[1..], link.down + [Welcome], Some(link.up[0].version))]
    {
      hide LinkOk, IdsBelow, ReadOk, EndsOk, EndedOk, AnswersOk, HeardAll, AllCurrent;
      var link := links[c];
      var now := Link(link.up[1..], link.down + [Welcome], Some(link.up[0].version));
      if connections[c].living {
        HelloOk(connections[c], link, version);
      } else if connections[c].registered {
        OneThatEnded(connections, links, until, history, version, c);
        HelloNot(connections[c], link, until[c], history, version);
      }
      IdsWelcome(link, now, requests);
      OneChanged(connections, links, version, requests, c, connections[c], now, requests);
      OneEnded(connections, links, until, history, version, c, connections[c], now, until);
      assert connections[c := connections[c]] == connections;
      links := links[c := Link(link.up[1..], link.down + [Welcome], Some(link.up[0].version))];
    }

    /** A multiplexer applies a change, or refuses it, and says so. */
    ghost method MultiplexerApplies(c: ConnectionId, accepts: bool)
      requires Valid() && c in connections && links[c].up != [] && links[c].up[0].PeerControl?
      modifies `links
      ensures Valid()
      ensures var link := old(links[c]);
              links == old(links)[c := Link(link.up[1..], link.down + [PeerStatus(link.up[0].id, accepts, link.up[0].version)],
                                            if accepts then Some(link.up[0].version) else link.applied)]
    {
      hide LinkOk, IdsBelow, ReadOk, EndsOk, EndedOk, AnswersOk, HeardAll, AllCurrent;
      var link := links[c];
      var now := Link(link.up[1..], link.down + [PeerStatus(link.up[0].id, accepts, link.up[0].version)],
                      if accepts then Some(link.up[0].version) else link.applied);
      if connections[c].living {
        AppliedOk(connections[c], link, version);
      } else if connections[c].registered {
        OneThatEnded(connections, links, until, history, version, c);
        EndedApplied(connections[c], link, until[c], history, version);
      }
      IdsApplied(link, now, requests);
      OneChanged(connections, links, version, requests, c, connections[c], now, requests);
      OneEnded(connections, links, until, history, version, c, connections[c], now, until);
      assert connections[c := connections[c]] == connections;
      links := links[c := now];
    }

    /** A multiplexer routes a message to the client, under what it applied last. */
    ghost method MultiplexerRoutes(c: ConnectionId)
      requires Valid() && c in connections && links[c].applied.Some?
      modifies `links
      ensures Valid()
      ensures var link := old(links[c]);
              links == old(links)[c := link.(down := link.down + [Message(link.applied.value)])]
    {
      hide LinkOk, IdsBelow, ReadOk, EndsOk, EndedOk, AnswersOk, HeardAll, AllCurrent;
      var link := links[c];
      var now := link.(down := link.down + [Message(link.applied.value)]);
      if connections[c].living {
        RoutedOk(connections[c], link, version);
      } else if connections[c].registered {
        OneThatEnded(connections, links, until, history, version, c);
        EndedRouted(connections[c], link, until[c], history, version);
      }
      IdsRouted(link, requests);
      OneChanged(connections, links, version, requests, c, connections[c], now, requests);
      OneEnded(connections, links, until, history, version, c, connections[c], now, until);
      assert connections[c := connections[c]] == connections;
      links := links[c := now];
    }
  }

  /** A client with one connection, on which a message is on its way. */
  method OneOnItsWay() returns (client: Client)
    ensures fresh(client) && client.Valid() && client.version == 0 && client.read == [] && client.dequeued == 0
    ensures client.connections == map[0 := Connection(true, true, false, 0, 0, 0)]
    ensures client.links == map[0 := Link([], [Message(0)], Some(0))] && client.history == [0] && client.until == map[]
    ensures forall id :: client.takes(id)
  {
    hide LinksOk, ReadOk, Told, AnswersOk, HeardAll, AllCurrent, EndsOk, Client.Sound, Client.Valid, Client.AllConfirmed;
    client := new Client(_ => true);
    client.Connected(0);
    client.MultiplexerWelcomes(0);
    assert client.links[0] == Link([], [Welcome], Some(0));
    client.Registered(0);
    assert client.links.Keys == {0} && client.links[0] == Link([], [], Some(0));
    client.MultiplexerRoutes(0);
    assert client.links[0] == Link([], [Message(0)], Some(0));
  }

  /** The client of `OneOnItsWay` after a change told, its message still on its way. */
  method OneTold() returns (client: Client, id: nat)
    ensures fresh(client) && client.Valid() && client.version == 1 && client.read == [] && client.dequeued == 0 && client.rules == 1
    ensures client.connections == map[0 := Connection(true, true, false, 0, 0, id)] && client.history == [0, 1]
    ensures client.links == map[0 := Link([PeerControl(id, 1)], [Message(0)], Some(0))] && client.current
  {
    hide LinksOk, ReadOk, AnswersOk, HeardAll, AllCurrent, EndsOk, Client.Sound, Client.Valid, Client.AllConfirmed;
    client := OneOnItsWay();
    client.RoutingChanged(1);
    id := client.connections[0].request;
    assert client.takes(id);
    assert Told(Connection(true, true, false, 0, 0, 0), Link([], [Message(0)], Some(0)),
                client.connections[0], client.links[0], 1, client.takes);
    assert client.connections == map[0 := Connection(true, true, false, 0, 0, id)];
    assert client.links[0] == Link([PeerControl(id, 1)], [Message(0)], Some(0));
    assert client.links.Keys == {0};
  }

  /** A run that ends acknowledged, on a living connection: its multiplexer applies the
      change and says so, and what it routed before is taken out of the queue. */
  method ChangeAcknowledged() returns (client: Client)
    ensures client.Valid() && client.Acknowledged() && client.version == 1
    ensures 0 in client.connections && client.connections[0].living
  {
    hide LinksOk, ReadOk, Settled, AnswersOk, HeardAll, AllCurrent, EndsOk, Client.Sound, Client.Valid;
    var id;
    client, id := OneTold();
    client.MultiplexerApplies(0, true);
    assert client.links[0] == Link([], [Message(0), PeerStatus(id, true, 1)], Some(1));
    client.HandleMessage(0, 7, true);
    assert client.links[0] == Link([], [PeerStatus(id, true, 1)], Some(1));
    client.OnPeerStatus(0, id, true, 1, 1);
    client.AsManyAsRead();
    client.EverythingHeard();
    var message := client.NextIncomingMessage();
    client.AsManyAsRead();
  }

  /** A run in which the promise does not hold of the queue: a change is made, the
      connection's write fails before it is confirmed, and what its multiplexer
      had routed before is read on afterwards. */
  method LateMessage() returns (client: Client)
    ensures client.Valid() && client.Acknowledged() && client.NothingOlderInFlight()
    ensures !client.NothingOlderQueued() && !client.NothingLateQueued()
  {
    hide LinksOk, ReadOk, Settled, AnswersOk, HeardAll, AllCurrent, EndsOk, Client.Sound, Client.Valid;
    var id;
    client, id := OneTold();
    client.ConnectionDestroyed(0, true, false);
    client.AsManyAsRead();
    client.HandleMessage(0, 7, true);
    assert client.read[0] == 0;
  }
}
