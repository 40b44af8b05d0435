/** The real-time event channel of a location: messages and their tags,
    the connection that reads inbound frames and writes outbound ones, and
    the listener loop that hands events to a caller-supplied handler. */
module Events {
  import opened Wrappers
  import opened ApiErrors
  import Urls

  /** The JSON text of a message body (`serde_json::Value`), kept opaque. */
  type Payload = string

  datatype Message =
    | SubscriptionTopicsInfo(body: Payload)
    | DeviceInfoSet(body: Payload)
    | SessionInfo(body: Payload)
    | DataUpdate(body: Payload)
    | Unknown

  /** An event; `Event::new` is the constructor. */
  datatype Event = Event(message: Message)

  /** The JSON view of an event: the value of its `msg` tag and the rest of
      its content. */
  datatype Document = Document(tag: string, body: Payload)

  const KnownTags: set<string> := {"SubscriptionTopicsInfo", "DeviceInfoSet", "SessionInfo", "DataUpdate"}

  /** The tag a message is written with: its variant name. */
  function TagOf(m: Message): (t: string)
    ensures t in KnownTags <==> !m.Unknown?
  {
    match m
    case SubscriptionTopicsInfo(_) => "SubscriptionTopicsInfo"
    case DeviceInfoSet(_) => "DeviceInfoSet"
    case SessionInfo(_) => "SessionInfo"
    case DataUpdate(_) => "DataUpdate"
    case Unknown => "Unknown"
  }

  /** Reading a tagged document as a message: the four known tags select
      their variant and keep the body; every other tag is `Unknown`. */
  function MessageOf(doc: Document): (m: Message)
    ensures m.Unknown? <==> doc.tag !in KnownTags
    ensures !m.Unknown? ==> TagOf(m) == doc.tag && m.body == doc.body
  {
    match doc.tag
    case "SubscriptionTopicsInfo" => SubscriptionTopicsInfo(doc.body)
    case "DeviceInfoSet" => DeviceInfoSet(doc.body)
    case "SessionInfo" => SessionInfo(doc.body)
    case "DataUpdate" => DataUpdate(doc.body)
    case _ => Unknown
  }

  /** Writing a message as a tagged document. */
  function DocumentOf(m: Message): (doc: Document)
    ensures doc.tag == TagOf(m)
  {
    Document(TagOf(m), if m.Unknown? then "" else m.body)
  }

  /** Every message, `Unknown` included, reads back as itself. */
  lemma MessageRoundTrip(m: Message)
    ensures MessageOf(DocumentOf(m)) == m
  {
  }

  /** A document with a known tag is written back exactly as it was read. */
  lemma DocumentRoundTrip(doc: Document)
    requires doc.tag in KnownTags
    ensures DocumentOf(MessageOf(doc)) == doc
  {
  }

  /** A WebSocket frame as the transport yields it. */
  datatype Frame =
    | Text(text: string)
    | Binary(data: seq<bv8>)
    | Ping(data: seq<bv8>)
    | Pong(data: seq<bv8>)
    | Close(reason: string)

  /** One item of the inbound stream: a frame, or a transport error. */
  datatype Received = Delivered(frame: Frame) | Failed(cause: string)

  /** The frame's text read as JSON (`Err` holds the decoder's message). */
  type Parser = Frame -> Result<Document, string>

  /** A document written as JSON text (`Err` holds the encoder's message). */
  type Renderer = Document -> Result<string, string>

  predicate IsPing(item: Received)
  {
    item.Delivered? && item.frame.Ping?
  }

  /** What `next` reports for one item that is not a Ping. */
  function Outcome(item: Received, parse: Parser): (r: Result<Event, ApiError>)
    ensures item.Failed? ==> r == Err(WebsocketError(item.cause))
    ensures item.Delivered? ==> (r.Ok? <==> parse(item.frame).Ok?)
    ensures item.Delivered? && r.Ok? ==> r.value == Event(MessageOf(parse(item.frame).value))
    ensures item.Delivered? && r.Err? ==> r.error == InvalidResponse(parse(item.frame).error)
  {
    match item
    case Failed(cause) => Err(WebsocketError(cause))
    case Delivered(frame) =>
      match parse(frame)
      case Ok(doc) => Ok(Event(MessageOf(doc)))
      case Err(why) => Err(InvalidResponse(why))
  }

  /** The result of `next` with the stream at position `k`, and the position
      after it: Pings are skipped, the first other item gives one result,
      and the end of the stream gives `None`. */
  function NextFrom(inbound: seq<Received>, k: nat, parse: Parser): (res: (Option<Result<Event, ApiError>>, nat))
    requires k <= |inbound|
    ensures k <= res.1 <= |inbound|
    ensures res.0.None? <==> res.1 == |inbound| && forall i :: k <= i < |inbound| ==> IsPing(inbound[i])
    ensures res.0.Some? ==>
      && k < res.1
      && (forall i :: k <= i < res.1 - 1 ==> IsPing(inbound[i]))
      && !IsPing(inbound[res.1 - 1])
      && res.0.value == Outcome(inbound[res.1 - 1], parse)
    decreases |inbound| - k
  {
    if k == |inbound| then (None, k)
    else if IsPing(inbound[k]) then NextFrom(inbound, k + 1, parse)
    else (Some(Outcome(inbound[k], parse)), k + 1)
  }

  /** `next` never reports a Ping, and a result is always the outcome of
      the first item that is not a Ping. */
  lemma {:induction false} NextSkipsLeadingPings(inbound: seq<Received>, k: nat, parse: Parser, pings: nat)
    requires k + pings < |inbound|
    requires forall i :: k <= i < k + pings ==> IsPing(inbound[i])
    requires !IsPing(inbound[k + pings])
    ensures NextFrom(inbound, k, parse) == (Some(Outcome(inbound[k + pings], parse)), k + pings + 1)
    decreases pings
  {
    if pings > 0 {
      NextSkipsLeadingPings(inbound, k + 1, parse, pings - 1);
    }
  }

  /** The encoded form of an event: a text frame with its JSON, or the
      encoder's failure as `InvalidResponse`. */
  function EncodeEvent(event: Event, render: Renderer): (r: Result<Frame, ApiError>)
    ensures r.Ok? <==> render(DocumentOf(event.message)).Ok?
    ensures r.Ok? ==> r.value == Text(render(DocumentOf(event.message)).value)
    ensures r.Err? ==> r.error == InvalidResponse(render(DocumentOf(event.message)).error)
  {
    match render(DocumentOf(event.message))
    case Ok(text) => Ok(Text(text))
    case Err(why) => Err(InvalidResponse(why))
  }

  /** The result of `send`, given the transport's answer to the write
      (`Some` is a write failure). */
  function SendOutcome(event: Event, fault: Option<string>, render: Renderer): (r: Result<(), ApiError>)
    ensures r.Ok? <==> EncodeEvent(event, render).Ok? && fault.None?
    ensures EncodeEvent(event, render).Err? ==> r == Err(EncodeEvent(event, render).error)
    ensures EncodeEvent(event, render).Ok? && fault.Some? ==> r == Err(WebsocketError(fault.value))
  {
    match EncodeEvent(event, render)
    case Err(e) => Err(e)
    case Ok(_) => if fault.Some? then Err(WebsocketError(fault.value)) else Ok(())
  }

  /** A live connection: the inbound stream with a read cursor and the
      outbound sink as the log of frames written to it. */
  class Connection {
    const inbound: seq<Received>
    const parse: Parser
    const render: Renderer
    var cursor: nat
    var sent: seq<Frame>

    ghost predicate Valid()
      reads this
    {
      cursor <= |inbound|
    }

    constructor (inbound: seq<Received>, parse: Parser, render: Renderer)
      ensures Valid()
      ensures this.inbound == inbound && this.parse == parse && this.render == render
      ensures cursor == 0 && sent == []
    {
      this.inbound := inbound;
      this.parse := parse;
      this.render := render;
      cursor := 0;
      sent := [];
    }

    /** Reads items until one that is not a Ping, and reports it. */
    method Next() returns (r: Option<Result<Event, ApiError>>)
      requires Valid()
      modifies this`cursor
      ensures Valid()
      ensures (r, cursor) == NextFrom(inbound, old(cursor), parse)
    {
      while cursor < |inbound|
        invariant old(cursor) <= cursor <= |inbound|
        invariant NextFrom(inbound, old(cursor), parse) == NextFrom(inbound, cursor, parse)
        decreases |inbound| - cursor
      {
        var item := inbound[cursor];
        cursor := cursor + 1;
        match item
        case Failed(cause) =>
          return Some(Err(WebsocketError(cause)));
        case Delivered(frame) =>
          if frame.Ping? {
            continue;
          }
          match parse(frame)
          case Err(why) =>
            return Some(Err(InvalidResponse(why)));
          case Ok(doc) =>
            return Some(Ok(Event(MessageOf(doc))));
      }
      return None;
    }

    /** Encodes an event and writes it to the sink, where `fault` is the
        transport's answer to the write. */
    method Send(event: Event, fault: Option<string>) returns (r: Result<(), ApiError>)
      requires Valid()
      modifies this`sent
      ensures Valid()
      ensures r == SendOutcome(event, fault, render)
      ensures sent == if r.Ok? then old(sent) + [EncodeEvent(event, render).value] else old(sent)
    {
      var frame := EncodeEvent(event, render);
      if frame.Err? {
        return Err(frame.error);
      }
      if fault.Some? {
        return Err(WebsocketError(fault.value));
      }
      sent := sent + [frame.value];
      return Ok(());
    }
  }

  /** One send the handler issues, with the transport's answer to it. */
  datatype Reply = Reply(event: Event, fault: Option<string>)

  /** What the handler does with an event: whether listening goes on, and
      the sends it issues on the connection meanwhile. */
  datatype Reaction = Reaction(proceed: bool, replies: seq<Reply>)

  /** The handler, given the events it was handed earlier in this run of
      `listen` and the new event. The history stands for whatever state
      the handler keeps between calls. */
  type Handler = (seq<Event>, Event) -> Reaction

  /** The frames a list of sends leaves in the sink. */
  function SentFrames(replies: seq<Reply>, render: Renderer): seq<Frame>
  {
    if replies == [] then []
    else
      var last := replies[|replies| - 1];
      SentFrames(replies[..|replies| - 1], render)
        + (if SendOutcome(last.event, last.fault, render).Ok? then [EncodeEvent(last.event, render).value] else [])
  }

  /** The frames the handler's sends leave in the sink, event after event. */
  function ReplyFrames(handled: seq<Event>, handler: Handler, render: Renderer): seq<Frame>
  {
    if handled == [] then []
    else
      var n := |handled| - 1;
      ReplyFrames(handled[..n], handler, render) + SentFrames(handler(handled[..n], handled[n]).replies, render)
  }

  lemma ReplyFramesSnoc(handled: seq<Event>, event: Event, handler: Handler, render: Renderer)
    ensures ReplyFrames(handled + [event], handler, render)
         == ReplyFrames(handled, handler, render) + SentFrames(handler(handled, event).replies, render)
  {
    assert (handled + [event])[..|handled|] == handled;
  }

  /** A listening run: the events handed to the handler, in order, and the
      stream position at which listening stopped. */
  datatype Run = Run(handled: seq<Event>, stop: nat)

  /** The run of `listen` from stream position `k`, after the handler has
      already been given `seen`: errors and `Unknown` messages are passed
      over, every other event goes to the handler, and listening ends at
      the end of the stream or when the handler says no. */
  function ListenFrom(inbound: seq<Received>, k: nat, parse: Parser, handler: Handler, seen: seq<Event>): (run: Run)
    requires k <= |inbound|
    ensures k <= run.stop <= |inbound|
    decreases |inbound| - k
  {
    var res := NextFrom(inbound, k, parse);
    var next := res.1;
    match res.0
    case None => Run([], next)
    case Some(Err(_)) => ListenFrom(inbound, next, parse, handler, seen)
    case Some(Ok(event)) =>
      if event.message.Unknown? then ListenFrom(inbound, next, parse, handler, seen)
      else if !handler(seen, event).proceed then Run([event], next)
      else
        var rest := ListenFrom(inbound, next, parse, handler, seen + [event]);
        Run([event] + rest.handled, rest.stop)
  }

  /** The event one item hands to the handler, if any: it must be a frame
      that is not a Ping, read as JSON, with a known tag. */
  function Deliverable(item: Received, parse: Parser): (e: Option<Event>)
    ensures e.Some? ==> !e.value.message.Unknown?
  {
    if item.Delivered? && !item.frame.Ping? && parse(item.frame).Ok?
       && !MessageOf(parse(item.frame).value).Unknown?
    then Some(Event(MessageOf(parse(item.frame).value)))
    else None
  }

  /** The events the items at positions `lo` to `hi` can hand over, in
      arrival order. */
  function Deliverables(inbound: seq<Received>, lo: nat, hi: nat, parse: Parser): seq<Event>
    requires lo <= hi <= |inbound|
    decreases hi - lo
  {
    if lo == hi then []
    else
      (match Deliverable(inbound[lo], parse) case Some(e) => [e] case None => [])
        + Deliverables(inbound, lo + 1, hi, parse)
  }

  lemma {:induction false} DeliverablesSplit(inbound: seq<Received>, lo: nat, mid: nat, hi: nat, parse: Parser)
    requires lo <= mid <= hi <= |inbound|
    ensures Deliverables(inbound, lo, hi, parse)
         == Deliverables(inbound, lo, mid, parse) + Deliverables(inbound, mid, hi, parse)
    decreases mid - lo
  {
    if lo < mid {
      DeliverablesSplit(inbound, lo + 1, mid, hi, parse);
    }
  }

  lemma {:induction false} DeliverablesOfPings(inbound: seq<Received>, lo: nat, hi: nat, parse: Parser)
    requires lo <= hi <= |inbound|
    requires forall i :: lo <= i < hi ==> IsPing(inbound[i])
    ensures Deliverables(inbound, lo, hi, parse) == []
    decreases hi - lo
  {
    if lo < hi {
      DeliverablesOfPings(inbound, lo + 1, hi, parse);
    }
  }

  /** Whatever `next` reports from position `k`, the items it consumed hand
      over exactly the event `listen` passes on, if any. */
  lemma NextDeliverables(inbound: seq<Received>, k: nat, parse: Parser)
    requires k <= |inbound|
    ensures var (r, next) := NextFrom(inbound, k, parse);
      Deliverables(inbound, k, next, parse)
        == if r.Some? && r.value.Ok? && !r.value.value.message.Unknown? then [r.value.value] else []
  {
    var (r, next) := NextFrom(inbound, k, parse);
    if r.None? {
      DeliverablesOfPings(inbound, k, next, parse);
    } else {
      DeliverablesOfPings(inbound, k, next - 1, parse);
      DeliverablesSplit(inbound, k, next - 1, next, parse);
    }
  }

  /** The handler, given `seen` and then each event of `handled` in turn,
      accepted the first `n` of them. */
  ghost predicate AcceptedFirst(seen: seq<Event>, handled: seq<Event>, handler: Handler, n: nat)
    requires n <= |handled|
  {
    forall i :: 0 <= i < n ==> handler(seen + handled[..i], handled[i]).proceed
  }

  /** A run of `listen` from position `k`, after `seen`, that matches the
      reference description: see `ListenFromSpec`. */
  ghost predicate MatchesReference(inbound: seq<Received>, k: nat, parse: Parser, handler: Handler,
                                   seen: seq<Event>, run: Run)
    requires k <= run.stop <= |inbound|
  {
    var h := run.handled;
    && h == Deliverables(inbound, k, run.stop, parse)
    && (|| (&& h != []
            && AcceptedFirst(seen, h, handler, |h| - 1)
            && !handler(seen + h[..|h| - 1], h[|h| - 1]).proceed
            && Deliverable(inbound[run.stop - 1], parse) == Some(h[|h| - 1]))
        || (run.stop == |inbound| && AcceptedFirst(seen, h, handler, |h|)))
  }

  /** One step of `listen`: what it does with the result of one `next`. */
  lemma ListenStep(inbound: seq<Received>, k: nat, parse: Parser, handler: Handler, seen: seq<Event>)
    requires k <= |inbound|
    ensures var res := NextFrom(inbound, k, parse);
      ListenFrom(inbound, k, parse, handler, seen)
        == if res.0.None? then Run([], res.1)
           else if res.0.value.Err? || res.0.value.value.message.Unknown? then ListenFrom(inbound, res.1, parse, handler, seen)
           else if !handler(seen, res.0.value.value).proceed then Run([res.0.value.value], res.1)
           else
             var rest := ListenFrom(inbound, res.1, parse, handler, seen + [res.0.value.value]);
             Run([res.0.value.value] + rest.handled, rest.stop)
  {
  }

  lemma ListenPassesOver(inbound: seq<Received>, k: nat, parse: Parser, handler: Handler, seen: seq<Event>)
    requires k <= |inbound|
    requires var res := NextFrom(inbound, k, parse);
      res.0.Some? && (res.0.value.Err? || res.0.value.value.message.Unknown?)
    ensures ListenFrom(inbound, k, parse, handler, seen)
         == ListenFrom(inbound, NextFrom(inbound, k, parse).1, parse, handler, seen)
  {
  }

  lemma ListenHandsOver(inbound: seq<Received>, k: nat, parse: Parser, handler: Handler, seen: seq<Event>)
    requires k <= |inbound|
    requires var res := NextFrom(inbound, k, parse);
      res.0.Some? && res.0.value.Ok? && !res.0.value.value.message.Unknown?
    ensures var res := NextFrom(inbound, k, parse);
      var event := res.0.value.value;
      var rest := ListenFrom(inbound, res.1, parse, handler, seen + [event]);
      ListenFrom(inbound, k, parse, handler, seen)
        == if handler(seen, event).proceed then Run([event] + rest.handled, rest.stop) else Run([event], res.1)
  {
  }

  lemma PassedOverKeepsReference(inbound: seq<Received>, k: nat, next: nat, parse: Parser, handler: Handler,
                                 seen: seq<Event>, run: Run)
    requires k <= next <= run.stop <= |inbound|
    requires Deliverables(inbound, k, next, parse) == []
    requires MatchesReference(inbound, next, parse, handler, seen, run)
    ensures MatchesReference(inbound, k, parse, handler, seen, run)
  {
    DeliverablesSplit(inbound, k, next, run.stop, parse);
  }

  /** Prepending an accepted event to a run keeps what the handler was
      given at every later step. */
  lemma AcceptedShift(seen: seq<Event>, event: Event, rest: seq<Event>, handler: Handler, n: nat)
    requires n <= |rest|
    requires handler(seen, event).proceed
    requires AcceptedFirst(seen + [event], rest, handler, n)
    ensures AcceptedFirst(seen, [event] + rest, handler, n + 1)
  {
    var h := [event] + rest;
    forall i | 0 <= i < n + 1 ensures handler(seen + h[..i], h[i]).proceed {
      if i == 0 {
        assert seen + h[..0] == seen;
      } else {
        assert h[i] == rest[i - 1];
        assert seen + h[..i] == (seen + [event]) + rest[..i - 1];
      }
    }
  }

  lemma AcceptedExtendsReference(inbound: seq<Received>, k: nat, next: nat, parse: Parser, handler: Handler,
                                 seen: seq<Event>, event: Event, rest: Run)
    requires k < next <= rest.stop <= |inbound|
    requires Deliverables(inbound, k, next, parse) == [event]
    requires handler(seen, event).proceed
    requires MatchesReference(inbound, next, parse, handler, seen + [event], rest)
    ensures MatchesReference(inbound, k, parse, handler, seen, Run([event] + rest.handled, rest.stop))
  {
    DeliverablesSplit(inbound, k, next, rest.stop, parse);
    var r := rest.handled;
    var h := [event] + r;
    if r != [] && !handler((seen + [event]) + r[..|r| - 1], r[|r| - 1]).proceed {
      AcceptedShift(seen, event, r, handler, |r| - 1);
      assert h[|h| - 1] == r[|r| - 1];
      assert seen + h[..|h| - 1] == (seen + [event]) + r[..|r| - 1];
    } else {
      AcceptedShift(seen, event, r, handler, |r|);
    }
  }

  /** `listen`, characterised without reference to its loop: the handler
      gets exactly the deliverable events of the items read, in arrival
      order, each together with the events it was given before; it
      accepted all but possibly the last; and listening stopped either
      right after the item whose event the handler refused, or at the end
      of the stream with every event accepted. Errors and `Unknown`
      messages never stop it. */
  lemma {:induction false} ListenFromSpec(inbound: seq<Received>, k: nat, parse: Parser, handler: Handler,
                                          seen: seq<Event>)
    requires k <= |inbound|
    ensures MatchesReference(inbound, k, parse, handler, seen, ListenFrom(inbound, k, parse, handler, seen))
    decreases |inbound| - k
  {
    var res := NextFrom(inbound, k, parse);
    if res.0.Some? && (res.0.value.Err? || res.0.value.value.message.Unknown?) {
      ListenFromSpec(inbound, res.1, parse, handler, seen);
      PassedOverStep(inbound, k, parse, handler, seen);
    } else if res.0.Some? && handler(seen, res.0.value.value).proceed {
      ListenFromSpec(inbound, res.1, parse, handler, seen + [res.0.value.value]);
      AcceptedStep(inbound, k, parse, handler, seen);
    } else {
      FinalStep(inbound, k, parse, handler, seen);
    }
  }

  lemma PassedOverStep(inbound: seq<Received>, k: nat, parse: Parser, handler: Handler, seen: seq<Event>)
    requires k <= |inbound|
    requires var res := NextFrom(inbound, k, parse);
      && res.0.Some? && (res.0.value.Err? || res.0.value.value.message.Unknown?)
      && MatchesReference(inbound, res.1, parse, handler, seen, ListenFrom(inbound, res.1, parse, handler, seen))
    ensures MatchesReference(inbound, k, parse, handler, seen, ListenFrom(inbound, k, parse, handler, seen))
  {
    var next := NextFrom(inbound, k, parse).1;
    NextDeliverables(inbound, k, parse);
    ListenStep(inbound, k, parse, handler, seen);
    PassedOverKeepsReference(inbound, k, next, parse, handler, seen, ListenFrom(inbound, next, parse, handler, seen));
  }

  lemma AcceptedStep(inbound: seq<Received>, k: nat, parse: Parser, handler: Handler, seen: seq<Event>)
    requires k <= |inbound|
    requires var res := NextFrom(inbound, k, parse);
      && res.0.Some? && res.0.value.Ok? && !res.0.value.value.message.Unknown?
      && handler(seen, res.0.value.value).proceed
      && MatchesReference(inbound, res.1, parse, handler, seen + [res.0.value.value],
                          ListenFrom(inbound, res.1, parse, handler, seen + [res.0.value.value]))
    ensures MatchesReference(inbound, k, parse, handler, seen, ListenFrom(inbound, k, parse, handler, seen))
  {
    var res := NextFrom(inbound, k, parse);
    var event := res.0.value.value;
    NextDeliverables(inbound, k, parse);
    ListenStep(inbound, k, parse, handler, seen);
    AcceptedExtendsReference(inbound, k, res.1, parse, handler, seen, event,
                             ListenFrom(inbound, res.1, parse, handler, seen + [event]));
  }

  lemma FinalStep(inbound: seq<Received>, k: nat, parse: Parser, handler: Handler, seen: seq<Event>)
    requires k <= |inbound|
    requires var res := NextFrom(inbound, k, parse);
      || res.0.None?
      || (res.0.value.Ok? && !res.0.value.value.message.Unknown? && !handler(seen, res.0.value.value).proceed)
    ensures MatchesReference(inbound, k, parse, handler, seen, ListenFrom(inbound, k, parse, handler, seen))
  {
    var res := NextFrom(inbound, k, parse);
    NextDeliverables(inbound, k, parse);
    ListenStep(inbound, k, parse, handler, seen);
    if res.0.Some? {
      DeliverableOfOutcome(inbound[res.1 - 1], parse);
      var h := [res.0.value.value];
      assert ListenFrom(inbound, k, parse, handler, seen) == Run(h, res.1);
      assert seen + h[..0] == seen;
    }
  }

  /** An item that is not a Ping hands over the event `next` reports for
      it, unless that is an error or an `Unknown` message. */
  lemma DeliverableOfOutcome(item: Received, parse: Parser)
    requires !IsPing(item)
    ensures Deliverable(item, parse)
         == if Outcome(item, parse).Ok? && !Outcome(item, parse).value.message.Unknown?
            then Some(Outcome(item, parse).value) else None
  {
  }

  /** The handler is never given an `Unknown` message. */
  lemma {:induction false} ListenNeverHandsOverUnknown(inbound: seq<Received>, k: nat, parse: Parser,
                                                       handler: Handler, seen: seq<Event>)
    requires k <= |inbound|
    ensures forall e :: e in ListenFrom(inbound, k, parse, handler, seen).handled ==> !e.message.Unknown?
  {
    ListenFromSpec(inbound, k, parse, handler, seen);
    DeliverablesKnown(inbound, k, ListenFrom(inbound, k, parse, handler, seen).stop, parse);
  }

  lemma {:induction false} DeliverablesKnown(inbound: seq<Received>, lo: nat, hi: nat, parse: Parser)
    requires lo <= hi <= |inbound|
    ensures forall e :: e in Deliverables(inbound, lo, hi, parse) ==> !e.message.Unknown?
    decreases hi - lo
  {
    if lo < hi {
      DeliverablesKnown(inbound, lo + 1, hi, parse);
    }
  }

  /** The kinds of event the integration test expects when a listener opens. */
  const OpeningTags: set<string> := {"SessionInfo", "SubscriptionTopicsInfo"}

  /** The scenario of the integration test: a handler that counts the
      events it is given and stops once it holds two. Two frames of the
      expected kinds, of the same kind or not, reach it in arrival order,
      and nothing after the second is read. */
  lemma TwoEventsInOrder(f1: Frame, f2: Frame, later: seq<Received>, d1: Document, d2: Document,
                         parse: Parser, handler: Handler)
    requires !f1.Ping? && !f2.Ping?
    requires parse(f1) == Ok(d1) && parse(f2) == Ok(d2)
    requires d1.tag in OpeningTags && d2.tag in OpeningTags
    requires forall seen, e :: handler(seen, e).proceed == (|seen| + 1 < 2)
    ensures ListenFrom([Delivered(f1), Delivered(f2)] + later, 0, parse, handler, [])
         == Run([Event(MessageOf(d1)), Event(MessageOf(d2))], 2)
  {
    var inbound := [Delivered(f1), Delivered(f2)] + later;
    var e1, e2 := Event(MessageOf(d1)), Event(MessageOf(d2));
    assert inbound[0] == Delivered(f1) && inbound[1] == Delivered(f2);
    assert NextFrom(inbound, 0, parse) == (Some(Ok(e1)), 1);
    assert NextFrom(inbound, 1, parse) == (Some(Ok(e2)), 2);
    assert handler([], e1).proceed && !handler([e1], e2).proceed;
    assert [] + [e1] == [e1];
    assert ListenFrom(inbound, 1, parse, handler, [e1]) == Run([e2], 2);
  }

  /** One round of the listening loop keeps the run seen so far and the
      run still to come together equal to the whole run. */
  lemma ListenRunAdvances(whole: Run, handled: seq<Event>, now: seq<Event>, from: Run, rest: Run,
                          listening: bool, cursor: nat)
    requires whole == Run(handled + from.handled, from.stop)
    requires from == if listening then Run(now + rest.handled, rest.stop) else Run(now, cursor)
    ensures listening ==> whole == Run((handled + now) + rest.handled, rest.stop)
    ensures !listening ==> whole == Run(handled + now, cursor)
  {
    assert handled + (now + rest.handled) == (handled + now) + rest.handled;
  }

  /** One round of the listening loop appends the sends of the event it
      handed over, if any. */
  lemma RepliesAdvance(sent0: seq<Frame>, before: seq<Frame>, after: seq<Frame>, handled: seq<Event>,
                       delivered: Option<Event>, handler: Handler, render: Renderer)
    requires before == sent0 + ReplyFrames(handled, handler, render)
    requires after == before + if delivered.Some? then SentFrames(handler(handled, delivered.value).replies, render) else []
    ensures after == sent0 + ReplyFrames(handled + (if delivered.Some? then [delivered.value] else []), handler, render)
  {
    if delivered.Some? {
      ReplyFramesSnoc(handled, delivered.value, handler, render);
    } else {
      assert handled + [] == handled;
    }
  }

  /** An event listener for a location. */
  class Listener {
    const location: string
    const connection: Connection

    constructor (location: string, connection: Connection)
      ensures this.location == location && this.connection == connection
    {
      this.location := location;
      this.connection := connection;
    }

    /** Issues the handler's sends for one event, in order. */
    method SendReplies(replies: seq<Reply>)
      requires connection.Valid()
      modifies connection`sent
      ensures connection.Valid()
      ensures connection.sent == old(connection.sent) + SentFrames(replies, connection.render)
    {
      var i := 0;
      while i < |replies|
        invariant 0 <= i <= |replies|
        invariant connection.Valid()
        invariant connection.sent == old(connection.sent) + SentFrames(replies[..i], connection.render)
      {
        var _ := connection.Send(replies[i].event, replies[i].fault);
        assert replies[..i + 1][..i] == replies[..i];
        i := i + 1;
      }
      assert replies[..i] == replies;
    }

    /** One round of the listening loop: reads the next result and, if it
        is a known event, hands it to the handler, along with the events
        handed over before (`seen`), and issues its sends. Returns the event
        handed over, if any, and whether to go on. */
    method ListenOnce(handler: Handler, seen: seq<Event>) returns (delivered: Option<Event>, listening: bool)
      requires connection.Valid()
      modifies connection
      ensures connection.Valid()
      ensures listening ==> old(connection.cursor) < connection.cursor
      ensures var from := ListenFrom(connection.inbound, old(connection.cursor), connection.parse, handler, seen);
        var now := if delivered.Some? then [delivered.value] else [];
        var rest := ListenFrom(connection.inbound, connection.cursor, connection.parse, handler, seen + now);
        from == if listening then Run(now + rest.handled, rest.stop) else Run(now, connection.cursor)
      ensures connection.sent
           == old(connection.sent)
              + if delivered.Some? then SentFrames(handler(seen, delivered.value).replies, connection.render) else []
    {
      ghost var before := connection.cursor;
      var next := connection.Next();
      match next
      case None =>
        ListenStep(connection.inbound, before, connection.parse, handler, seen);
        return None, false;
      case Some(Err(_)) =>
        ListenPassesOver(connection.inbound, before, connection.parse, handler, seen);
        assert seen + [] == seen;
        return None, true;
      case Some(Ok(event)) =>
        if event.message.Unknown? {
          ListenPassesOver(connection.inbound, before, connection.parse, handler, seen);
          assert seen + [] == seen;
          return None, true;
        }
        var reaction := handler(seen, event);
        ListenHandsOver(connection.inbound, before, connection.parse, handler, seen);
        SendReplies(reaction.replies);
        return Some(event), reaction.proceed;
    }

    /** Reads events until the stream ends or the handler returns false,
        handing every known event to the handler; returns the events it
        handed over, in order. */
    method Listen(handler: Handler) returns (handled: seq<Event>)
      requires connection.Valid()
      modifies connection
      ensures connection.Valid()
      ensures ListenFrom(connection.inbound, old(connection.cursor), connection.parse, handler, [])
           == Run(handled, connection.cursor)
      ensures connection.sent == old(connection.sent) + ReplyFrames(handled, handler, connection.render)
    {
      ghost var inbound, parse, render := connection.inbound, connection.parse, connection.render;
      ghost var whole := ListenFrom(inbound, connection.cursor, parse, handler, []);
      ghost var sent0 := connection.sent;
      ghost var tail := whole;
      handled := [];
      var listening := true;
      while listening
        invariant connection.Valid()
        invariant listening ==> tail == ListenFrom(inbound, connection.cursor, parse, handler, handled)
        invariant listening ==> whole == Run(handled + tail.handled, tail.stop)
        invariant !listening ==> whole == Run(handled, connection.cursor)
        invariant connection.sent == sent0 + ReplyFrames(handled, handler, render)
        decreases listening, |inbound| - connection.cursor
      {
        ghost var sentBefore := connection.sent;
        var delivered;
        delivered, listening := ListenOnce(handler, handled);
        var now := if delivered.Some? then [delivered.value] else [];
        ghost var rest := ListenFrom(inbound, connection.cursor, parse, handler, handled + now);
        ListenRunAdvances(whole, handled, now, tail, rest, listening, connection.cursor);
        RepliesAdvance(sent0, sentBefore, connection.sent, handled, delivered, handler, render);
        handled := handled + now;
        tail := rest;
      }
    }

    /** Sends an event on the listener's connection. */
    method Send(event: Event, fault: Option<string>) returns (r: Result<(), ApiError>)
      requires connection.Valid()
      modifies connection`sent
      ensures connection.Valid()
      ensures r == SendOutcome(event, fault, connection.render)
      ensures connection.sent
           == if r.Ok? then old(connection.sent) + [EncodeEvent(event, connection.render).value]
              else old(connection.sent)
    {
      r := connection.Send(event, fault);
    }
  }

  /** The ticket that grants a WebSocket connection: an auth code and a host. */
  datatype Ticket = Ticket(id: string, host: string)

  /** The address `connect` dials for a ticket. */
  function ConnectUrl(ticket: Ticket): (url: string)
    ensures url == Urls.WssScheme + ticket.host + Urls.WebsocketPath + ticket.id + Urls.WebsocketQuery
  {
    Urls.BaseUrl(Urls.Websocket(ticket.host, ticket.id))
  }

  /** `connect`: the ticket request's error is passed on; otherwise the
      ticket's address is dialled, where `dial` is the transport's answer
      (`Some` is a failure); the result is the address connected to. */
  function Connect(ticket: Result<Ticket, ApiError>, dial: string -> Option<string>): (r: Result<string, ApiError>)
    ensures ticket.Err? ==> r == Err(ticket.error)
    ensures ticket.Ok? && dial(ConnectUrl(ticket.value)).Some? ==>
      r == Err(WebsocketError(dial(ConnectUrl(ticket.value)).value))
    ensures ticket.Ok? && dial(ConnectUrl(ticket.value)).None? ==> r == Ok(ConnectUrl(ticket.value))
  {
    match ticket
    case Err(e) => Err(e)
    case Ok(t) =>
      var url := ConnectUrl(t);
      match dial(url)
      case Some(why) => Err(WebsocketError(why))
      case None => Ok(url)
  }

  /** `get_listener`: connects, and on success wraps a fresh connection over
      the stream the socket will deliver. */
  method GetListener(location: string, ticket: Result<Ticket, ApiError>, dial: string -> Option<string>,
                     stream: seq<Received>, parse: Parser, render: Renderer)
    returns (r: Result<Listener, ApiError>)
    ensures r.Err? <==> Connect(ticket, dial).Err?
    ensures r.Err? ==> r.error == Connect(ticket, dial).error
    ensures r.Ok? ==>
      && fresh(r.value) && fresh(r.value.connection)
      && r.value.location == location
      && r.value.connection.Valid()
      && r.value.connection.inbound == stream
      && r.value.connection.parse == parse && r.value.connection.render == render
      && r.value.connection.cursor == 0 && r.value.connection.sent == []
  {
    var connected := Connect(ticket, dial);
    if connected.Err? {
      return Err(connected.error);
    }
    var connection := new Connection(stream, parse, render);
    var listener := new Listener(location, connection);
    return Ok(listener);
  }
}
