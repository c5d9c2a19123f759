/** The line protocol of the command line tool: printing and parsing of commands and events. */
module Cli {
  import opened Options
  import opened Text

  /** A parse can also end in a panic, when an argument is missing altogether. */
  datatype Parsed<T> = Ok(value: T) | Error | Panic {
    predicate IsFailure() {
      !Ok?
    }

    function PropagateFailure<U>(): Parsed<U>
      requires IsFailure()
    {
      if Error? then Error else Panic
    }

    function Extract(): T
      requires !IsFailure()
    {
      value
    }
  }

  /** How the libraries print and parse one kind of value. */
  datatype Codec<!T> = Codec(show: T -> string, parse: string -> Option<T>)

  /** Peer ids, addresses and content ids, and whether a content id fits a block's data. */
  datatype Codecs<!P, !A, !C> = Codecs(peer: Codec<P>, addr: Codec<A>, cid: Codec<C>, fits: (C, seq<Byte>) -> bool)

  /** The value is printed without whitespace, and its text parses back to it. */
  predicate Clean<T(==)>(c: Codec<T>, x: T) {
    Spaceless(c.show(x)) && c.parse(c.show(x)) == Some(x)
  }

  datatype Command<P, A, C> =
    | AddAddress(peer: P, addr: A)
    | Dial(peer: P)
    | PrunePeers
    | Get(cid: C)
    | Insert(cid: C, data: seq<Byte>)
    | Alias(alias: string, target: Option<C>)
    | Flush
    | Sync(cid: C)

  datatype Event<P, A, C> =
    | NewListener
    | NewListenAddr(addr: A)
    | ExpiredListenAddr(addr: A)
    | ListenerClosed
    | NewExternalAddr(addr: A)
    | ExpiredExternalAddr(addr: A)
    | Discovered(peer: P)
    | Unreachable(peer: P)
    | Connected(peer: P)
    | Disconnected(peer: P)
    | Subscribed(peer: P, topic: string)
    | Unsubscribed(peer: P, topic: string)
    | Block(cid: C, data: seq<Byte>)
    | Flushed
    | Synced
    | Bootstrapped
    | PeerRemoved(peer: P)
    | DialFailure(peer: P, addr: A, error: string)
    | ConnectionEstablished(peer: P, addr: A)
    | ConnectionClosed(peer: P, addr: A)

  // ---------- first words ----------

  datatype Verb = VAddAddress | VDial | VPrunePeers | VGet | VInsert | VAlias | VFlush | VSync

  function VerbWord(v: Verb): string {
    match v
    case VAddAddress => ">add-address"
    case VDial => ">dial"
    case VPrunePeers => ">prune-peers"
    case VGet => ">get"
    case VInsert => ">insert"
    case VAlias => ">alias"
    case VFlush => ">flush"
    case VSync => ">sync"
  }

  function VerbOf(w: string): Option<Verb> {
    if w == ">add-address" then Some(VAddAddress)
    else if w == ">dial" then Some(VDial)
    else if w == ">prune-peers" then Some(VPrunePeers)
    else if w == ">get" then Some(VGet)
    else if w == ">insert" then Some(VInsert)
    else if w == ">alias" then Some(VAlias)
    else if w == ">flush" then Some(VFlush)
    else if w == ">sync" then Some(VSync)
    else None
  }

  datatype Tag =
    | TNewListener | TNewListenAddr | TExpiredListenAddr | TListenerClosed | TNewExternalAddr | TExpiredExternalAddr
    | TDiscovered | TUnreachable | TConnected | TDisconnected | TSubscribed | TUnsubscribed | TBlock | TFlushed
    | TSynced | TBootstrapped | TPeerRemoved | TDialFailure | TConnectionEstablished | TConnectionClosed

  function TagWord(t: Tag): string {
    match t
    case TNewListener => "<new-listener"
    case TNewListenAddr => "<new-listen-addr"
    case TExpiredListenAddr => "<expired-listen-addr"
    case TListenerClosed => "<listener-closed"
    case TNewExternalAddr => "<new-external-addr"
    case TExpiredExternalAddr => "<expired-external-addr"
    case TDiscovered => "<discovered"
    case TUnreachable => "<unreachable"
    case TConnected => "<connected"
    case TDisconnected => "<disconnected"
    case TSubscribed => "<subscribed"
    case TUnsubscribed => "<unsubscribed"
    case TBlock => "<block"
    case TFlushed => "<flushed"
    case TSynced => "<synced"
    case TBootstrapped => "<bootstrapped"
    case TPeerRemoved => "<peer-removed"
    case TDialFailure => "<dial-failure"
    case TConnectionEstablished => "<connection-established"
    case TConnectionClosed => "<connection-closed"
  }

  function TagOf(w: string): Option<Tag> {
    if w == "<new-listener" then Some(TNewListener)
    else if w == "<new-listen-addr" then Some(TNewListenAddr)
    else if w == "<expired-listen-addr" then Some(TExpiredListenAddr)
    else if w == "<listener-closed" then Some(TListenerClosed)
    else if w == "<new-external-addr" then Some(TNewExternalAddr)
    else if w == "<expired-external-addr" then Some(TExpiredExternalAddr)
    else if w == "<discovered" then Some(TDiscovered)
    else if w == "<unreachable" then Some(TUnreachable)
    else if w == "<connected" then Some(TConnected)
    else if w == "<disconnected" then Some(TDisconnected)
    else if w == "<subscribed" then Some(TSubscribed)
    else if w == "<unsubscribed" then Some(TUnsubscribed)
    else if w == "<block" then Some(TBlock)
    else if w == "<flushed" then Some(TFlushed)
    else if w == "<synced" then Some(TSynced)
    else if w == "<bootstrapped" then Some(TBootstrapped)
    else if w == "<peer-removed" then Some(TPeerRemoved)
    else if w == "<dial-failure" then Some(TDialFailure)
    else if w == "<connection-established" then Some(TConnectionEstablished)
    else if w == "<connection-closed" then Some(TConnectionClosed)
    else None
  }

  lemma VerbRoundTrip(v: Verb)
    ensures VerbOf(VerbWord(v)) == Some(v) && Token(VerbWord(v)) && VerbWord(v)[0] == '>'
  {
    match v case _ =>
  }

  /** Events of listeners and of our own addresses. */
  predicate AboutListeners(t: Tag) {
    t.TNewListener? || t.TNewListenAddr? || t.TExpiredListenAddr? || t.TListenerClosed? || t.TNewExternalAddr?
    || t.TExpiredExternalAddr?
  }

  /** Whether a peer is known and reached. */
  predicate AboutPeers(t: Tag) {
    t.TDiscovered? || t.TUnreachable? || t.TConnected? || t.TDisconnected?
  }

  /** Topics, and peers that go away. */
  predicate AboutTopics(t: Tag) {
    t.TSubscribed? || t.TUnsubscribed? || t.TPeerRemoved?
  }

  /** Blocks and the progress of our own operations. */
  predicate AboutBlocks(t: Tag) {
    t.TBlock? || t.TFlushed? || t.TSynced? || t.TBootstrapped?
  }

  /** Dials and connections. */
  predicate AboutConnections(t: Tag) {
    t.TDialFailure? || t.TConnectionEstablished? || t.TConnectionClosed?
  }

  lemma ListenerTags(t: Tag)
    requires AboutListeners(t)
    ensures Token(TagWord(t)) && TagWord(t)[0] == '<' && TagOf(TagWord(t)) == Some(t)
  {
    match t case _ =>
  }

  lemma PeerTags(t: Tag)
    requires AboutPeers(t)
    ensures Token(TagWord(t)) && TagWord(t)[0] == '<' && TagOf(TagWord(t)) == Some(t)
  {
    match t case _ =>
  }

  lemma TopicTags(t: Tag)
    requires AboutTopics(t)
    ensures TagOf(TagWord(t)) == Some(t)
  {
    match t case _ =>
  }

  lemma TopicTagWords(t: Tag)
    requires AboutTopics(t)
    ensures Token(TagWord(t)) && TagWord(t)[0] == '<'
  {
    match t case _ =>
  }

  lemma BlockTags(t: Tag)
    requires AboutBlocks(t)
    ensures Token(TagWord(t)) && TagWord(t)[0] == '<' && TagOf(TagWord(t)) == Some(t)
  {
    match t case _ =>
  }

  lemma ConnectionTags(t: Tag)
    requires AboutConnections(t)
    ensures TagOf(TagWord(t)) == Some(t)
  {
    match t case _ =>
  }

  lemma ConnectionTagWords(t: Tag)
    requires AboutConnections(t)
    ensures Token(TagWord(t)) && TagWord(t)[0] == '<'
  {
    match t case _ =>
  }

  lemma TagRoundTrip(t: Tag)
    ensures Token(TagWord(t)) && TagWord(t)[0] == '<' && TagOf(TagWord(t)) == Some(t)
  {
    if AboutListeners(t) {
      ListenerTags(t);
    } else if AboutPeers(t) {
      PeerTags(t);
    } else if AboutTopics(t) {
      TopicTags(t);
      TopicTagWords(t);
    } else if AboutBlocks(t) {
      BlockTags(t);
    } else {
      ConnectionTags(t);
      ConnectionTagWords(t);
    }
  }

  // ---------- printing ----------

  /** A first word alone, or followed by a space and the rest of the line. */
  function Line(word: string, rest: Option<string>): string {
    if rest.None? then word else word + " " + rest.value
  }

  function CommandVerb<P, A, C>(c: Command<P, A, C>): Verb {
    match c
    case AddAddress(_, _) => VAddAddress
    case Dial(_) => VDial
    case PrunePeers => VPrunePeers
    case Get(_) => VGet
    case Insert(_, _) => VInsert
    case Alias(_, _) => VAlias
    case Flush => VFlush
    case Sync(_) => VSync
  }

  function CommandRest<P, A, C>(k: Codecs<P, A, C>, c: Command<P, A, C>): Option<string> {
    match c
    case AddAddress(p, a) => Some(k.peer.show(p) + " " + k.addr.show(a))
    case Dial(p) => Some(k.peer.show(p))
    case PrunePeers => None
    case Get(cid) => Some(k.cid.show(cid))
    case Insert(cid, data) => Some(k.cid.show(cid) + " " + HexText(data))
    case Alias(alias, None) => Some(alias)
    case Alias(alias, Some(cid)) => Some(alias + " " + k.cid.show(cid))
    case Flush => None
    case Sync(cid) => Some(k.cid.show(cid))
  }

  function PrintCommand<P, A, C>(k: Codecs<P, A, C>, c: Command<P, A, C>): string {
    Line(VerbWord(CommandVerb(c)), CommandRest(k, c))
  }

  function EventTag<P, A, C>(e: Event<P, A, C>): Tag {
    match e
    case NewListener => TNewListener
    case NewListenAddr(_) => TNewListenAddr
    case ExpiredListenAddr(_) => TExpiredListenAddr
    case ListenerClosed => TListenerClosed
    case NewExternalAddr(_) => TNewExternalAddr
    case ExpiredExternalAddr(_) => TExpiredExternalAddr
    case Discovered(_) => TDiscovered
    case Unreachable(_) => TUnreachable
    case Connected(_) => TConnected
    case Disconnected(_) => TDisconnected
    case Subscribed(_, _) => TSubscribed
    case Unsubscribed(_, _) => TUnsubscribed
    case Block(_, _) => TBlock
    case Flushed => TFlushed
    case Synced => TSynced
    case Bootstrapped => TBootstrapped
    case PeerRemoved(_) => TPeerRemoved
    case DialFailure(_, _, _) => TDialFailure
    case ConnectionEstablished(_, _) => TConnectionEstablished
    case ConnectionClosed(_, _) => TConnectionClosed
  }

  function EventRest<P, A, C>(k: Codecs<P, A, C>, e: Event<P, A, C>): Option<string> {
    match e
    case NewListener => None
    case NewListenAddr(a) => Some(k.addr.show(a))
    case ExpiredListenAddr(a) => Some(k.addr.show(a))
    case ListenerClosed => None
    case NewExternalAddr(a) => Some(k.addr.show(a))
    case ExpiredExternalAddr(a) => Some(k.addr.show(a))
    case Discovered(p) => Some(k.peer.show(p))
    case Unreachable(p) => Some(k.peer.show(p))
    case Connected(p) => Some(k.peer.show(p))
    case Disconnected(p) => Some(k.peer.show(p))
    case Subscribed(p, topic) => Some(k.peer.show(p) + " " + topic)
    case Unsubscribed(p, topic) => Some(k.peer.show(p) + " " + topic)
    case Block(cid, data) => Some(k.cid.show(cid) + " " + HexText(data))
    case Flushed => None
    case Synced => None
    case Bootstrapped => None
    case PeerRemoved(p) => Some(k.peer.show(p))
    case DialFailure(p, a, error) => Some(k.peer.show(p) + " " + (k.addr.show(a) + " " + error))
    case ConnectionEstablished(p, a) => Some(k.peer.show(p) + " " + k.addr.show(a))
    case ConnectionClosed(p, a) => Some(k.peer.show(p) + " " + k.addr.show(a))
  }

  function PrintEvent<P, A, C>(k: Codecs<P, A, C>, e: Event<P, A, C>): string {
    Line(TagWord(EventTag(e)), EventRest(k, e))
  }

  // ---------- parsing ----------

  function TakeWord(ts: seq<string>, i: nat): Parsed<string> {
    if i < |ts| then Ok(ts[i]) else Panic
  }

  function Take<T>(ts: seq<string>, i: nat, c: Codec<T>): Parsed<T> {
    var w :- TakeWord(ts, i);
    match c.parse(w)
    case Some(v) => Ok(v)
    case None => Error
  }

  function TakeBlock<P, A, C>(k: Codecs<P, A, C>, ts: seq<string>): Parsed<(C, seq<Byte>)> {
    var cid :- Take(ts, 1, k.cid);
    var w :- TakeWord(ts, 2);
    match ParseHex(w)
    case None => Error
    case Some(data) => if k.fits(cid, data) then Ok((cid, data)) else Error
  }

  function ParseCommand<P, A, C>(k: Codecs<P, A, C>, s: string): Parsed<Command<P, A, C>> {
    var ts := Split(s);
    if ts == [] || VerbOf(ts[0]).None? then Error else CommandFrom(k, VerbOf(ts[0]).value, ts)
  }

  /** The command with this first word, from the words of its line. */
  function CommandFrom<P, A, C>(k: Codecs<P, A, C>, v: Verb, ts: seq<string>): Parsed<Command<P, A, C>> {
    match v
    case VAddAddress =>
      var p :- Take(ts, 1, k.peer);
      var a :- Take(ts, 2, k.addr);
      Ok(AddAddress(p, a))
    case VDial =>
      var p :- Take(ts, 1, k.peer);
      Ok(Dial(p))
    case VPrunePeers => Ok(PrunePeers)
    case VGet =>
      var cid :- Take(ts, 1, k.cid);
      Ok(Get(cid))
    case VInsert =>
      var b :- TakeBlock(k, ts);
      Ok(Insert(b.0, b.1))
    case VAlias =>
      var alias :- TakeWord(ts, 1);
      if |ts| == 2 then Ok(Alias(alias, None))
      else
        var cid :- Take(ts, 2, k.cid);
        Ok(Alias(alias, Some(cid)))
    case VFlush => Ok(Flush)
    case VSync =>
      var cid :- Take(ts, 1, k.cid);
      Ok(Sync(cid))
  }

  function ParseEvent<P, A, C>(k: Codecs<P, A, C>, s: string): Parsed<Event<P, A, C>> {
    var ts := Split(s);
    if ts == [] || TagOf(ts[0]).None? then Error else EventFrom(k, TagOf(ts[0]).value, ts)
  }

  /** The event with this first word, from the words of its line. */
  function EventFrom<P, A, C>(k: Codecs<P, A, C>, t: Tag, ts: seq<string>): Parsed<Event<P, A, C>> {
    match t
    case TNewListener => Ok(NewListener)
    case TNewListenAddr =>
      var a :- Take(ts, 1, k.addr);
      Ok(NewListenAddr(a))
    case TExpiredListenAddr =>
      var a :- Take(ts, 1, k.addr);
      Ok(ExpiredListenAddr(a))
    case TListenerClosed => Ok(ListenerClosed)
    case TNewExternalAddr =>
      var a :- Take(ts, 1, k.addr);
      Ok(NewExternalAddr(a))
    case TExpiredExternalAddr =>
      var a :- Take(ts, 1, k.addr);
      Ok(ExpiredExternalAddr(a))
    case TDiscovered =>
      var p :- Take(ts, 1, k.peer);
      Ok(Discovered(p))
    case TUnreachable =>
      var p :- Take(ts, 1, k.peer);
      Ok(Unreachable(p))
    case TConnected =>
      var p :- Take(ts, 1, k.peer);
      Ok(Connected(p))
    case TDisconnected =>
      var p :- Take(ts, 1, k.peer);
      Ok(Disconnected(p))
    case TSubscribed =>
      var p :- Take(ts, 1, k.peer);
      var topic :- TakeWord(ts, 2);
      Ok(Subscribed(p, topic))
    case TUnsubscribed =>
      var p :- Take(ts, 1, k.peer);
      var topic :- TakeWord(ts, 2);
      Ok(Unsubscribed(p, topic))
    case TBlock =>
      var b :- TakeBlock(k, ts);
      Ok(Block(b.0, b.1))
    case TFlushed => Ok(Flushed)
    case TSynced => Ok(Synced)
    case TBootstrapped => Ok(Bootstrapped)
    case TPeerRemoved =>
      var p :- Take(ts, 1, k.peer);
      Ok(PeerRemoved(p))
    case TDialFailure =>
      var p :- Take(ts, 1, k.peer);
      var a :- Take(ts, 2, k.addr);
      Ok(DialFailure(p, a, Join(if |ts| > 3 then ts[3..] else [])))
    case TConnectionEstablished =>
      var p :- Take(ts, 1, k.peer);
      var a :- Take(ts, 2, k.addr);
      Ok(ConnectionEstablished(p, a))
    case TConnectionClosed =>
      var p :- Take(ts, 1, k.peer);
      var a :- Take(ts, 2, k.addr);
      Ok(ConnectionClosed(p, a))
  }

  // ---------- what survives the round trip ----------

  /** The libraries can read back what they print of the values in this command. */
  predicate CleanCommand<P(==), A(==), C(==)>(k: Codecs<P, A, C>, c: Command<P, A, C>) {
    match c
    case AddAddress(p, a) => Clean(k.peer, p) && Clean(k.addr, a)
    case Dial(p) => Clean(k.peer, p)
    case Get(cid) => Clean(k.cid, cid)
    case Insert(cid, _) => Clean(k.cid, cid)
    case Alias(_, Some(cid)) => Clean(k.cid, cid)
    case Sync(cid) => Clean(k.cid, cid)
    case _ => true
  }

  /** Every field has a text, a block has data that fits, and an alias is a single word. */
  predicate PrintableCommand<P, A, C>(k: Codecs<P, A, C>, c: Command<P, A, C>) {
    match c
    case AddAddress(p, a) => k.peer.show(p) != "" && k.addr.show(a) != ""
    case Dial(p) => k.peer.show(p) != ""
    case Get(cid) => k.cid.show(cid) != ""
    case Insert(cid, data) => k.cid.show(cid) != "" && data != [] && k.fits(cid, data)
    case Alias(alias, target) => Token(alias) && (target.Some? ==> k.cid.show(target.value) != "")
    case Sync(cid) => k.cid.show(cid) != ""
    case _ => true
  }

  /** The libraries can read back what they print of the values in this event. */
  predicate CleanEvent<P(==), A(==), C(==)>(k: Codecs<P, A, C>, e: Event<P, A, C>) {
    match e
    case NewListenAddr(a) => Clean(k.addr, a)
    case ExpiredListenAddr(a) => Clean(k.addr, a)
    case NewExternalAddr(a) => Clean(k.addr, a)
    case ExpiredExternalAddr(a) => Clean(k.addr, a)
    case Discovered(p) => Clean(k.peer, p)
    case Unreachable(p) => Clean(k.peer, p)
    case Connected(p) => Clean(k.peer, p)
    case Disconnected(p) => Clean(k.peer, p)
    case Subscribed(p, _) => Clean(k.peer, p)
    case Unsubscribed(p, _) => Clean(k.peer, p)
    case Block(cid, _) => Clean(k.cid, cid)
    case PeerRemoved(p) => Clean(k.peer, p)
    case DialFailure(p, a, _) => Clean(k.peer, p) && Clean(k.addr, a)
    case ConnectionEstablished(p, a) => Clean(k.peer, p) && Clean(k.addr, a)
    case ConnectionClosed(p, a) => Clean(k.peer, p) && Clean(k.addr, a)
    case _ => true
  }

  /** Every field has a text, a block has data that fits, a topic is a single word and an error is single-spaced. */
  predicate PrintableEvent<P, A, C>(k: Codecs<P, A, C>, e: Event<P, A, C>) {
    match e
    case NewListenAddr(a) => k.addr.show(a) != ""
    case ExpiredListenAddr(a) => k.addr.show(a) != ""
    case NewExternalAddr(a) => k.addr.show(a) != ""
    case ExpiredExternalAddr(a) => k.addr.show(a) != ""
    case Discovered(p) => k.peer.show(p) != ""
    case Unreachable(p) => k.peer.show(p) != ""
    case Connected(p) => k.peer.show(p) != ""
    case Disconnected(p) => k.peer.show(p) != ""
    case Subscribed(p, topic) => k.peer.show(p) != "" && Token(topic)
    case Unsubscribed(p, topic) => k.peer.show(p) != "" && Token(topic)
    case Block(cid, data) => k.cid.show(cid) != "" && data != [] && k.fits(cid, data)
    case PeerRemoved(p) => k.peer.show(p) != ""
    case DialFailure(p, a, error) => k.peer.show(p) != "" && k.addr.show(a) != "" && SingleSpaced(error)
    case ConnectionEstablished(p, a) => k.peer.show(p) != "" && k.addr.show(a) != ""
    case ConnectionClosed(p, a) => k.peer.show(p) != "" && k.addr.show(a) != ""
    case _ => true
  }

  function RestWords(rest: Option<string>): seq<string> {
    if rest.None? then [] else Split(rest.value)
  }

  lemma SplitLine(word: string, rest: Option<string>)
    requires Token(word)
    ensures Split(Line(word, rest)) == [word] + RestWords(rest)
  {
    SplitCons(word, if rest.Some? then rest.value else "");
  }

  lemma ParseCommandLine<P, A, C>(k: Codecs<P, A, C>, v: Verb, rest: Option<string>)
    ensures ParseCommand(k, Line(VerbWord(v), rest)) == CommandFrom(k, v, [VerbWord(v)] + RestWords(rest))
  {
    VerbRoundTrip(v);
    SplitLine(VerbWord(v), rest);
  }

  lemma ParseEventLine<P, A, C>(k: Codecs<P, A, C>, t: Tag, rest: Option<string>)
    ensures ParseEvent(k, Line(TagWord(t), rest)) == EventFrom(k, t, [TagWord(t)] + RestWords(rest))
  {
    TagRoundTrip(t);
    SplitLine(TagWord(t), rest);
  }

  /** A single field parses back exactly when it has a text; without one its word is missing. */
  lemma OneRoundTrip<T>(c: Codec<T>, w: string, x: T)
    requires Clean(c, x)
    ensures Take([w] + Split(c.show(x)), 1, c) == if c.show(x) != "" then Ok(x) else Panic
  {
    SplitField(c.show(x), "");
  }

  /** Two fields parse back exactly when both have a text; otherwise the second word is missing. */
  lemma PairRoundTrip<P, A>(c: Codec<P>, d: Codec<A>, w: string, p: P, a: A)
    requires Clean(c, p) && Clean(d, a)
    ensures var ts := [w] + Split(c.show(p) + " " + d.show(a));
      if c.show(p) != "" && d.show(a) != "" then Take(ts, 1, c) == Ok(p) && Take(ts, 2, d) == Ok(a)
      else Take(ts, 2, d) == Panic
  {
    SplitField(c.show(p), d.show(a));
    SplitField(d.show(a), "");
  }

  /** A block parses back exactly when its content id has a text, and it has data that fits. */
  lemma BlockRoundTrip<P, A, C>(k: Codecs<P, A, C>, w: string, cid: C, data: seq<Byte>)
    requires Clean(k.cid, cid)
    ensures var ts := [w] + Split(k.cid.show(cid) + " " + HexText(data));
      TakeBlock(k, ts) == Ok((cid, data)) <==> k.cid.show(cid) != "" && data != [] && k.fits(cid, data)
  {
    SplitField(k.cid.show(cid), HexText(data));
    if data != [] {
      HexIsWord(data);
      SplitCons(HexText(data), "");
      HexRoundTrip(data);
    }
  }

  lemma AliasRoundTrip<P, A, C>(k: Codecs<P, A, C>, w: string, alias: string, target: Option<C>)
    requires target.Some? ==> Clean(k.cid, target.value)
    ensures var c: Command<P, A, C> := Alias(alias, target);
      CommandFrom(k, VAlias, [w] + RestWords(CommandRest(k, c))) == Ok(c) <==> PrintableCommand(k, c)
  {
    var c: Command<P, A, C> := Alias(alias, target);
    SplitYieldsTokens(CommandRest(k, c).value);
    if Token(alias) {
      if target.Some? {
        SplitCons(alias, k.cid.show(target.value));
        SplitField(k.cid.show(target.value), "");
      } else {
        SplitCons(alias, "");
      }
    }
  }

  lemma AddAddressRoundTrip<P, A, C>(k: Codecs<P, A, C>, w: string, p: P, a: A)
    requires Clean(k.peer, p) && Clean(k.addr, a)
    ensures var c: Command<P, A, C> := AddAddress(p, a);
      CommandFrom(k, VAddAddress, [w] + RestWords(CommandRest(k, c))) == Ok(c) <==> PrintableCommand(k, c)
  {
    PairRoundTrip(k.peer, k.addr, w, p, a);
  }

  lemma CommandWordsRoundTrip<P, A, C>(k: Codecs<P, A, C>, w: string, c: Command<P, A, C>)
    requires CleanCommand(k, c)
    ensures CommandFrom(k, CommandVerb(c), [w] + RestWords(CommandRest(k, c))) == Ok(c) <==> PrintableCommand(k, c)
  {
    match c
    case AddAddress(p, a) => AddAddressRoundTrip(k, w, p, a);
    case Dial(p) => OneRoundTrip(k.peer, w, p);
    case PrunePeers =>
    case Get(cid) => OneRoundTrip(k.cid, w, cid);
    case Insert(cid, data) => BlockRoundTrip(k, w, cid, data);
    case Alias(alias, target) => AliasRoundTrip(k, w, alias, target);
    case Flush =>
    case Sync(cid) => OneRoundTrip(k.cid, w, cid);
  }

  /** A printed command whose values read back parses to itself exactly when it is printable. */
  lemma CommandRoundTrip<P, A, C>(k: Codecs<P, A, C>, c: Command<P, A, C>)
    requires CleanCommand(k, c)
    ensures ParseCommand(k, PrintCommand(k, c)) == Ok(c) <==> PrintableCommand(k, c)
  {
    ParseCommandLine(k, CommandVerb(c), CommandRest(k, c));
    CommandWordsRoundTrip(k, VerbWord(CommandVerb(c)), c);
  }

  /** The empty address prints as no text at all, and the line it leaves makes the parser panic. */
  lemma EmptyAddressPanics<P, A, C>(k: Codecs<P, A, C>, p: P, a: A)
    requires Clean(k.peer, p) && k.peer.show(p) != "" && Clean(k.addr, a) && k.addr.show(a) == ""
    ensures ParseCommand(k, PrintCommand(k, AddAddress(p, a))) == Panic
  {
    ParseCommandLine(k, VAddAddress, CommandRest(k, AddAddress(p, a)));
    EmptyAddressCommand(k, VerbWord(VAddAddress), p, a);
  }

  /** The same for an event that ends in an address. */
  lemma EmptyEventAddressPanics<P, A, C>(k: Codecs<P, A, C>, e: Event<P, A, C>)
    requires CleanEvent(k, e) && IsPaired(e) && k.peer.show(e.peer) != "" && k.addr.show(e.addr) == ""
    ensures ParseEvent(k, PrintEvent(k, e)) == Panic
  {
    ParseEventLine(k, EventTag(e), EventRest(k, e));
    EmptyAddressEvent(k, TagWord(EventTag(e)), e);
  }

  lemma EmptyAddressCommand<P, A, C>(k: Codecs<P, A, C>, w: string, p: P, a: A)
    requires Clean(k.peer, p) && k.peer.show(p) != "" && Clean(k.addr, a) && k.addr.show(a) == ""
    ensures CommandFrom(k, VAddAddress, [w] + Split(k.peer.show(p) + " " + k.addr.show(a))) == Panic
  {
    FirstRoundTrip(k.peer, w, p, k.addr.show(a));
    PairRoundTrip(k.peer, k.addr, w, p, a);
  }

  lemma EmptyAddressEvent<P, A, C>(k: Codecs<P, A, C>, w: string, e: Event<P, A, C>)
    requires CleanEvent(k, e) && IsPaired(e) && k.peer.show(e.peer) != "" && k.addr.show(e.addr) == ""
    ensures EventFrom(k, EventTag(e), [w] + RestWords(EventRest(k, e))) == Panic
  {
    FirstRoundTrip(k.peer, w, e.peer, k.addr.show(e.addr));
    PairRoundTrip(k.peer, k.addr, w, e.peer, e.addr);
  }

  lemma FirstRoundTrip<T>(c: Codec<T>, w: string, x: T, rest: string)
    requires Clean(c, x) && c.show(x) != ""
    ensures Take([w] + Split(c.show(x) + " " + rest), 1, c) == Ok(x)
  {
    SplitField(c.show(x), rest);
  }

  /** A topic needs a peer before it and has to be a single word. */
  lemma TopicRoundTrip<P>(c: Codec<P>, w: string, p: P, topic: string)
    requires Clean(c, p)
    ensures var ts := [w] + Split(c.show(p) + " " + topic);
      Take(ts, 1, c) == Ok(p) && TakeWord(ts, 2) == Ok(topic) <==> c.show(p) != "" && Token(topic)
  {
    SplitField(c.show(p), topic);
    SplitYieldsTokens(topic);
    if Token(topic) {
      SplitCons(topic, "");
    }
  }

  // ---------- events ----------

  /** Events whose line is a first word and at most one printed address. */
  predicate IsAddressed<P, A, C>(e: Event<P, A, C>) {
    e.NewListenAddr? || e.ExpiredListenAddr? || e.NewExternalAddr? || e.ExpiredExternalAddr?
  }

  predicate IsPeered<P, A, C>(e: Event<P, A, C>) {
    e.Discovered? || e.Unreachable? || e.Connected? || e.Disconnected? || e.PeerRemoved?
  }

  predicate IsPaired<P, A, C>(e: Event<P, A, C>) {
    e.ConnectionEstablished? || e.ConnectionClosed?
  }

  predicate IsTopical<P, A, C>(e: Event<P, A, C>) {
    e.Subscribed? || e.Unsubscribed?
  }

  ghost predicate Survives<P, A, C>(k: Codecs<P, A, C>, w: string, e: Event<P, A, C>) {
    EventFrom(k, EventTag(e), [w] + RestWords(EventRest(k, e))) == Ok(e)
  }

  lemma AddressedRoundTrip<P, A, C>(k: Codecs<P, A, C>, w: string, e: Event<P, A, C>)
    requires CleanEvent(k, e) && IsAddressed(e)
    ensures Survives(k, w, e) <==> PrintableEvent(k, e)
  {
    OneRoundTrip(k.addr, w, e.addr);
  }

  lemma PeeredRoundTrip<P, A, C>(k: Codecs<P, A, C>, w: string, e: Event<P, A, C>)
    requires CleanEvent(k, e) && IsPeered(e)
    ensures Survives(k, w, e) <==> PrintableEvent(k, e)
  {
    OneRoundTrip(k.peer, w, e.peer);
  }

  lemma PairedRoundTrip<P, A, C>(k: Codecs<P, A, C>, w: string, e: Event<P, A, C>)
    requires CleanEvent(k, e) && IsPaired(e)
    ensures Survives(k, w, e) <==> PrintableEvent(k, e)
  {
    PairRoundTrip(k.peer, k.addr, w, e.peer, e.addr);
    PairedParses(k, [w] + RestWords(EventRest(k, e)), e);
  }

  lemma PairedParses<P, A, C>(k: Codecs<P, A, C>, ts: seq<string>, e: Event<P, A, C>)
    requires IsPaired(e)
    ensures EventFrom(k, EventTag(e), ts) == Ok(e)
      <==> Take(ts, 1, k.peer) == Ok(e.peer) && Take(ts, 2, k.addr) == Ok(e.addr)
  {}

  lemma TopicalRoundTrip<P, A, C>(k: Codecs<P, A, C>, w: string, e: Event<P, A, C>)
    requires CleanEvent(k, e) && IsTopical(e)
    ensures Survives(k, w, e) <==> PrintableEvent(k, e)
  {
    TopicRoundTrip(k.peer, w, e.peer, e.topic);
  }

  lemma BlockEventRoundTrip<P, A, C>(k: Codecs<P, A, C>, w: string, e: Event<P, A, C>)
    requires CleanEvent(k, e) && e.Block?
    ensures Survives(k, w, e) <==> PrintableEvent(k, e)
  {
    BlockRoundTrip(k, w, e.cid, e.data);
    BlockParses(k, [w] + RestWords(EventRest(k, e)), e);
  }

  lemma BlockParses<P, A, C>(k: Codecs<P, A, C>, ts: seq<string>, e: Event<P, A, C>)
    requires e.Block?
    ensures EventFrom(k, EventTag(e), ts) == Ok(e) <==> TakeBlock(k, ts) == Ok((e.cid, e.data))
  {}

  lemma FailureWords<P, A>(c: Codec<P>, d: Codec<A>, p: P, a: A, error: string)
    requires Clean(c, p) && Clean(d, a)
    ensures Split(c.show(p) + " " + (d.show(a) + " " + error))
         == WordsOf(c.show(p)) + (WordsOf(d.show(a)) + Split(error))
  {
    SplitField(d.show(a), error);
    SplitField(c.show(p), d.show(a) + " " + error);
  }

  /** What a line of dial failure parses to, given its words. */
  lemma DialFailureParses<P, A, C>(k: Codecs<P, A, C>, ts: seq<string>, p: P, a: A, error: string)
    ensures EventFrom(k, TDialFailure, ts) == Ok(DialFailure(p, a, error))
       <==> && |ts| >= 3
            && k.peer.parse(ts[1]) == Some(p)
            && k.addr.parse(ts[2]) == Some(a)
            && Join(ts[3..]) == error
  {
    assert |ts| == 3 ==> ts[3..] == [];
  }

  /** Words that lose one at the front join to another text. */
  lemma ShorterJoin(words: seq<string>, error: string)
    requires words == Split(error) && words != []
    ensures Join(words[1..]) != error
    ensures |words| > 1 ==> Join(words[2..]) != error
  {
    SplitYieldsTokens(error);
    SplitJoin(words[1..]);
    if |words| > 1 {
      SplitJoin(words[2..]);
    }
  }

  /** With the words before the error complete it has to be single-spaced; with one missing nothing helps. */
  lemma FailureTail<P, A, C>(k: Codecs<P, A, C>, front: seq<string>, p: P, a: A, error: string)
    requires 1 <= |front| <= 3
    requires |front| == 3 ==> k.peer.parse(front[1]) == Some(p) && k.addr.parse(front[2]) == Some(a)
    ensures EventFrom(k, TDialFailure, front + Split(error)) == Ok(DialFailure(p, a, error))
       <==> |front| == 3 && SingleSpaced(error)
  {
    var ts := front + Split(error);
    DialFailureParses(k, ts, p, a, error);
    if |front| == 3 {
      assert ts[3..] == Split(error);
    } else if |ts| >= 3 {
      assert ts[3..] == Split(error)[3 - |front|..];
      ShorterJoin(Split(error), error);
    }
  }

  /** The words of a line of dial failure before the error. */
  function FailureFront<P, A, C>(k: Codecs<P, A, C>, w: string, p: P, a: A): seq<string> {
    [w] + WordsOf(k.peer.show(p)) + WordsOf(k.addr.show(a))
  }

  lemma Regroup(a: seq<string>, b: seq<string>, c: seq<string>, d: seq<string>)
    ensures a + (b + (c + d)) == a + b + c + d
  {}

  lemma FailureLine<P, A, C>(k: Codecs<P, A, C>, w: string, p: P, a: A, error: string)
    requires Clean(k.peer, p) && Clean(k.addr, a)
    ensures [w] + Split(k.peer.show(p) + " " + (k.addr.show(a) + " " + error))
      == FailureFront(k, w, p, a) + Split(error)
  {
    FailureWords(k.peer, k.addr, p, a, error);
    Regroup([w], WordsOf(k.peer.show(p)), WordsOf(k.addr.show(a)), Split(error));
  }

  lemma FailureFrontFacts<P, A, C>(k: Codecs<P, A, C>, w: string, p: P, a: A)
    requires Clean(k.peer, p) && Clean(k.addr, a)
    ensures var front := FailureFront(k, w, p, a);
      && 1 <= |front| <= 3
      && (|front| == 3 <==> k.peer.show(p) != "" && k.addr.show(a) != "")
      && (|front| == 3 ==> k.peer.parse(front[1]) == Some(p) && k.addr.parse(front[2]) == Some(a))
  {}

  lemma DialFailureRoundTrip<P, A, C>(k: Codecs<P, A, C>, w: string, e: Event<P, A, C>)
    requires CleanEvent(k, e) && e.DialFailure?
    ensures Survives(k, w, e) <==> PrintableEvent(k, e)
  {
    FailureFrontFacts(k, w, e.peer, e.addr);
    FailureTail(k, FailureFront(k, w, e.peer, e.addr), e.peer, e.addr, e.error);
    assert [w] + RestWords(EventRest(k, e)) == FailureFront(k, w, e.peer, e.addr) + Split(e.error) by {
      FailureLine(k, w, e.peer, e.addr, e.error);
    }
  }

  lemma EventWordsRoundTrip<P, A, C>(k: Codecs<P, A, C>, w: string, e: Event<P, A, C>)
    requires CleanEvent(k, e)
    ensures Survives(k, w, e) <==> PrintableEvent(k, e)
  {
    if e.DialFailure? {
      DialFailureRoundTrip(k, w, e);
    } else if IsAddressed(e) {
      AddressedRoundTrip(k, w, e);
    } else if IsPeered(e) {
      PeeredRoundTrip(k, w, e);
    } else if IsPaired(e) {
      PairedRoundTrip(k, w, e);
    } else if IsTopical(e) {
      TopicalRoundTrip(k, w, e);
    } else if e.Block? {
      BlockEventRoundTrip(k, w, e);
    }
  }

  /** A printed event whose values read back parses to itself exactly when it is printable. */
  lemma EventRoundTrip<P, A, C>(k: Codecs<P, A, C>, e: Event<P, A, C>)
    requires CleanEvent(k, e)
    ensures ParseEvent(k, PrintEvent(k, e)) == Ok(e) <==> PrintableEvent(k, e)
  {
    ParseEventLine(k, EventTag(e), EventRest(k, e));
    EventWordsRoundTrip(k, TagWord(EventTag(e)), e);
  }

  /**
   Different commands have different lines as soon as their values read back and they are
   printable; so have events.
   */
  lemma PrintingIsInjective<P, A, C>(
    k: Codecs<P, A, C>, c: Command<P, A, C>, d: Command<P, A, C>, e: Event<P, A, C>, f: Event<P, A, C>)
    ensures CleanCommand(k, c) && CleanCommand(k, d) && PrintableCommand(k, c) && PrintableCommand(k, d) && c != d ==>
      PrintCommand(k, c) != PrintCommand(k, d)
    ensures CleanEvent(k, e) && CleanEvent(k, f) && PrintableEvent(k, e) && PrintableEvent(k, f) && e != f ==>
      PrintEvent(k, e) != PrintEvent(k, f)
  {
    if CleanCommand(k, c) && CleanCommand(k, d) {
      CommandRoundTrip(k, c);
      CommandRoundTrip(k, d);
    }
    if CleanEvent(k, e) && CleanEvent(k, f) {
      EventRoundTrip(k, e);
      EventRoundTrip(k, f);
    }
  }

  // ---------- the lines themselves ----------

  /** The words of a command's line, as the protocol fixes them. */
  function CommandWords<P, A, C>(k: Codecs<P, A, C>, c: Command<P, A, C>): seq<string> {
    match c
    case AddAddress(p, a) => [">add-address", k.peer.show(p), k.addr.show(a)]
    case Dial(p) => [">dial", k.peer.show(p)]
    case PrunePeers => [">prune-peers"]
    case Get(cid) => [">get", k.cid.show(cid)]
    case Insert(cid, data) => [">insert", k.cid.show(cid), HexText(data)]
    case Alias(alias, None) => [">alias", alias]
    case Alias(alias, Some(cid)) => [">alias", alias, k.cid.show(cid)]
    case Flush => [">flush"]
    case Sync(cid) => [">sync", k.cid.show(cid)]
  }

  /** The words of an event's line. */
  function EventWords<P, A, C>(k: Codecs<P, A, C>, e: Event<P, A, C>): seq<string> {
    match e
    case NewListener => ["<new-listener"]
    case NewListenAddr(a) => ["<new-listen-addr", k.addr.show(a)]
    case ExpiredListenAddr(a) => ["<expired-listen-addr", k.addr.show(a)]
    case ListenerClosed => ["<listener-closed"]
    case NewExternalAddr(a) => ["<new-external-addr", k.addr.show(a)]
    case ExpiredExternalAddr(a) => ["<expired-external-addr", k.addr.show(a)]
    case Discovered(p) => ["<discovered", k.peer.show(p)]
    case Unreachable(p) => ["<unreachable", k.peer.show(p)]
    case Connected(p) => ["<connected", k.peer.show(p)]
    case Disconnected(p) => ["<disconnected", k.peer.show(p)]
    case Subscribed(p, topic) => ["<subscribed", k.peer.show(p), topic]
    case Unsubscribed(p, topic) => ["<unsubscribed", k.peer.show(p), topic]
    case Block(cid, data) => ["<block", k.cid.show(cid), HexText(data)]
    case Flushed => ["<flushed"]
    case Synced => ["<synced"]
    case Bootstrapped => ["<bootstrapped"]
    case PeerRemoved(p) => ["<peer-removed", k.peer.show(p)]
    case DialFailure(p, a, error) => ["<dial-failure", k.peer.show(p), k.addr.show(a), error]
    case ConnectionEstablished(p, a) => ["<connection-established", k.peer.show(p), k.addr.show(a)]
    case ConnectionClosed(p, a) => ["<connection-closed", k.peer.show(p), k.addr.show(a)]
  }

  lemma JoinWords(w: string, a: string, b: string, c: string)
    ensures Join([w]) == w
    ensures Join([w, a]) == w + " " + a
    ensures Join([w, a, b]) == w + " " + (a + " " + b)
    ensures Join([w, a, b, c]) == w + " " + (a + " " + (b + " " + c))
  {
    assert [w, a][1..] == [a] && [w, a, b][1..] == [a, b] && [w, a, b, c][1..] == [a, b, c];
    assert [a, b][1..] == [b] && [a, b, c][1..] == [b, c] && [b, c][1..] == [c];
    assert Join([b]) == b && Join([c]) == c;
    assert Join([b, c]) == b + " " + Join([c]);
    assert Join([a, b]) == a + " " + Join([b]);
    assert Join([a, b, c]) == a + " " + Join([b, c]);
  }

  /** The line of a command is its words with single spaces between them. */
  lemma CommandLine<P, A, C>(k: Codecs<P, A, C>, c: Command<P, A, C>)
    ensures PrintCommand(k, c) == Join(CommandWords(k, c))
  {
    var ws := CommandWords(k, c);
    JoinWords(ws[0], if |ws| > 1 then ws[1] else "", if |ws| > 2 then ws[2] else "", "");
  }

  lemma EventFirstWord<P, A, C>(k: Codecs<P, A, C>, e: Event<P, A, C>)
    ensures |EventWords(k, e)| >= 1 && EventWords(k, e)[0] == TagWord(EventTag(e))
  {
    match e case _ =>
  }

  lemma EventOtherWords<P, A, C>(k: Codecs<P, A, C>, e: Event<P, A, C>)
    ensures var ws := EventWords(k, e);
      1 <= |ws| <= 4 && EventRest(k, e) == if |ws| == 1 then None else Some(Join(ws[1..]))
  {
    var ws := EventWords(k, e);
    if |ws| > 1 {
      var a, b, c := ws[1], if |ws| > 2 then ws[2] else "", if |ws| > 3 then ws[3] else "";
      assert ws[1..] == if |ws| == 2 then [a] else if |ws| == 3 then [a, b] else [a, b, c];
      JoinWords(a, b, c, "");
    }
  }

  /** The line of an event is its words with single spaces between them. */
  lemma EventLine<P, A, C>(k: Codecs<P, A, C>, e: Event<P, A, C>)
    ensures PrintEvent(k, e) == Join(EventWords(k, e))
  {
    EventFirstWord(k, e);
    EventOtherWords(k, e);
  }

  lemma VerbExact(w: string)
    ensures VerbOf(w).Some? ==> w == VerbWord(VerbOf(w).value)
  {}

  lemma TagExact(w: string)
    ensures TagOf(w).Some? ==> w == TagWord(TagOf(w).value)
  {}

  /** A line without a word, or whose first word does not begin as commands or events do, is an error and no panic. */
  lemma UnknownLines<P, A, C>(k: Codecs<P, A, C>, s: string)
    ensures Split(s) == [] || Split(s)[0] == "" || Split(s)[0][0] != '>' ==> ParseCommand(k, s) == Error
    ensures Split(s) == [] || Split(s)[0] == "" || Split(s)[0][0] != '<' ==> ParseEvent(k, s) == Error
  {
    if Split(s) != [] {
      var w := Split(s)[0];
      VerbExact(w);
      TagExact(w);
      if VerbOf(w).Some? {
        VerbRoundTrip(VerbOf(w).value);
      }
      if TagOf(w).Some? {
        TagRoundTrip(TagOf(w).value);
      }
    }
  }

  /** A missing argument is a panic, one that does not parse is an error, and further words are ignored. */
  lemma ArgumentOutcome<P, A, C>(k: Codecs<P, A, C>, x: string, more: string)
    requires Token(x)
    ensures ParseCommand(k, Line(VerbWord(VDial), None)) == Panic
    ensures ParseCommand(k, Line(VerbWord(VDial), Some(x + " " + more)))
         == if k.peer.parse(x).Some? then Ok(Dial(k.peer.parse(x).value)) else Error
  {
    ParseCommandLine(k, VDial, None);
    ParseCommandLine(k, VDial, Some(x + " " + more));
    SplitCons(x, more);
  }

  lemma LineStart(word: string, rest: Option<string>)
    requires word != ""
    ensures Line(word, rest) != "" && Line(word, rest)[0] == word[0]
  {}

  /** No line is both a command and an event, printable or not. */
  lemma LanguagesDisjoint<P, A, C>(k: Codecs<P, A, C>, c: Command<P, A, C>, e: Event<P, A, C>)
    ensures PrintCommand(k, c) != PrintEvent(k, e)
  {
    VerbRoundTrip(CommandVerb(c));
    TagRoundTrip(EventTag(e));
    LineStart(VerbWord(CommandVerb(c)), CommandRest(k, c));
    LineStart(TagWord(EventTag(e)), EventRest(k, e));
  }
}
