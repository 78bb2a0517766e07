/** The server and its clients, joined by connections that deliver in order. */
module Network {
  import opened Protocol
  import opened ServerSpec
  import opened Logs
  import opened ClientSpec

  /** One connection, for one session of one client. The client has taken the first `pos` messages that the
      server sent on it; `up` holds what the client sent and the server has not handled. A connection that is
      cut carries nothing more from the client than `up`. */
  datatype Link = Link(client: Player, pos: nat, up: seq<Request>, cut: bool)

  datatype Sys = Sys(srv: State, links: map<nat, Link>)

  const STARTUP := Sys(INITIAL, map[])

  /** What the environment of one handler chooses. */
  datatype Env = Env(newKey: nat, garbage: nat, draws: Draws, r: Rolls)

  datatype Action =
    | Connect(p: nat)
    | TypeName(p: nat, nick: Nick)
    | Press(p: nat, k: char, cmd: Command)
    | Deliver(p: nat)
    | Cut(p: nat, keep: nat)
    | Serve(p: nat, env: Env)

  /** The queue entry that a request from connection `p` becomes. */
  function EventOf(p: nat, r: Request, env: Env): Event {
    match r
    case Join(nick) => EvJoin(p, nick, env.newKey, env.garbage)
    case Quit(id, key) => EvQuit(id, key, env.r)
    case Ask(c) => EvChallenge(p, c, env.draws, env.r)
    case Act(t) => EvTurn(t, env.r)
    case Gone => EvDisconnect(p, env.r)
  }

  /** add_challenge finds an id within its tries, and one that was never used. */
  ghost predicate Lucky(s: State, e: Event) {
    e.EvChallenge? && e.c.action == CStart ==>
      FirstFree(e.draws, s.chs.Keys).Chid? && FirstFree(e.draws, s.chs.Keys).k !in s.hist.pairs
  }

  /** The client puts `rs` on its connection. */
  function Post(l: Link, out: (Player, seq<Request>)): Link {
    l.(client := out.0, up := if l.cut then l.up else l.up + out.1)
  }

  ghost predicate Enabled(y: Sys, a: Action) {
    if a.Connect? then a.p !in y.links && 0 < a.p < ID_MODULUS
    else
      && a.p in y.links
      && var l := y.links[a.p];
         match a
         case Connect(p) => true
         case TypeName(p, nick) => l.client.phase == Typing
         case Press(p, k, cmd) => l.client.phase == Playing
         case Deliver(p) => (l.client.phase == Joining || l.client.phase == Playing) && l.pos < |Log(y.srv.out, p)|
         case Cut(p, keep) => !l.cut && keep <= |l.up|
         case Serve(p, env) => l.up != [] && Lucky(y.srv, EventOf(p, l.up[0], env))
  }

  function Relink(y: Sys, p: nat, l: Link): Sys {
    y.(links := y.links[p := l])
  }

  /** The next state, or nothing when the server fails. */
  ghost function Evolve(y: Sys, a: Action): (o: Fate)
    requires Enabled(y, a)
  {
    if a.Connect? then Goes(Relink(y, a.p, Link(NEWCOMER, 0, [], false)))
    else
      var l := y.links[a.p];
      match a
      case Connect(p) => Fails
      case TypeName(p, nick) => Goes(Relink(y, p, Post(l, LoggedIn(l.client, nick))))
      case Press(p, k, cmd) => Goes(Relink(y, p, Post(l, Pressed(l.client, k, cmd))))
      case Deliver(p) => Goes(Relink(y, p, Post(l, Received(l.client, Log(y.srv.out, p)[l.pos])).(pos := l.pos + 1)))
      case Cut(p, keep) => Goes(Relink(y, p, l.(up := l.up[..keep] + [Gone], cut := true)))
      case Serve(p, env) =>
        match Step(y.srv, EventOf(p, l.up[0], env))
        case Crash => Fails
        case Next(t) => Goes(Sys(t, y.links[p := l.(up := l.up[1..])]))
  }

  datatype Fate = Goes(y: Sys) | Fails
}
