/** Records, constants and pure comparisons shared by server and client (lib/common.h). */
module Protocol {

  const NICKNAME_LEN := 32
  const UCHANGE_MAX_UCNT := 16
  const MAX_USER_COUNT := 1024
  const MAXHP := 10
  /** UINT16_MAX: user and challenge ids are reduced modulo this value. */
  const ID_MODULUS := 65535
  /** `turn_no` is a uint16_t and wraps at this value. */
  const TURN_MODULUS := 65536

  /** A NUL-terminated C string that fits a `char[NICKNAME_LEN]`. */
  type Nick = s: string | |s| < NICKNAME_LEN && (forall c | c in s :: c != '\0') witness ""

  datatype UserState = Offline | Online | Battling
  datatype ChState = Asking | Started
  datatype TurnResult = Win | Lose | Even

  datatype MsgErr =
    | MeOk | DupNick | NxId | IcKey | NxChid | TooManyUser | JoinTwice
    | Engaged | ChlSelf | InvArg | Rejected | Cancelled | MeOther

  /** `CInvalid` stands for every int16_t that names no challenge action. */
  datatype ChAction = CStart | CReject | CAccept | CCancel | CInvalid

  datatype Entry = Entry(id: nat, nick: Nick, state: UserState, score: int)

  datatype ChallengeMsg = ChallengeMsg(id1: nat, id2: nat, key: nat, chid: nat, action: ChAction)

  datatype TurnMsg = TurnMsg(user: nat, chid: nat, key: nat, turnNo: nat, action: nat)

  /** What a client may put on its connection; `Gone` marks the end of the byte stream. */
  datatype Request =
    | Join(nick: Nick)
    | Quit(id: nat, key: nat)
    | Ask(c: ChallengeMsg)
    | Act(t: TurnMsg)
    | Gone

  /** What the server sends. `battle` is history: it names the challenge whose turn was judged. The wire
      message has a chid field, but the server never fills it in and the client never reads it. */
  datatype Msg =
    | JoinR(nick: Nick, error: MsgErr, id: nat, key: nat)
    | UChange(users: seq<Entry>)
    | Relay(c: ChallengeMsg)
    | ChallengeR(error: MsgErr, id1: nat, id2: nat, chid: nat, isId1: bool)
    | TurnR(battle: nat, turnNo: nat, action1: nat, action2: nat, winner: nat,
            hp1: int, hp2: int, maxhp1: int, maxhp2: int, fin: bool)

  const B_ROCK := 0
  const B_PAPER := 1
  const B_SCISSORS := 2

  predicate Beats(a: nat, b: nat) {
    (a == B_ROCK && b == B_SCISSORS) || (a == B_PAPER && b == B_ROCK) || (a == B_SCISSORS && b == B_PAPER)
  }

  /** get_turn_result; an action outside the enumeration (any uint16_t may arrive) is a draw. */
  function TurnOutcome(a: nat, b: nat): TurnResult {
    if Beats(a, b) then Win else if Beats(b, a) then Lose else Even
  }

  function FoldChar(c: char): char {
    if 'A' <= c <= 'Z' then (c as int + 32) as char else c
  }

  function FoldString(s: string): string {
    if s == "" then "" else [FoldChar(s[0])] + FoldString(s[1..])
  }

  datatype NickKey = NickKey(folded: string)

  /** What `cmp_by_nick` distinguishes: the nickname up to case. */
  function FoldNick(n: Nick): NickKey {
    NickKey(FoldString(n))
  }
}
