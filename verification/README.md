# Rock-paper-scissors over TCP: a verified model

The system is a game server and its curses clients. The server is one packet handler fed by a bounded queue; it keeps
a registry of users under three keys, a table of challenges, and plays battles between pairs of users. Every client
keeps a copy of the user table and takes its turns when it is told to. The two talk in fixed-size binary messages over
one TCP connection per session.

The project models these parts and proves what they promise each other.

- `Protocol`, `Walk`: records, constants, the outcome of a turn; the in-order walk of a tree.
- `ServerSpec`, `Server`: what each handler does, as functions on values; and the packet handler as an object whose
  fields the handlers update, proved equal to those functions. `Crash` stands for a failed C assert or a null
  dereference.
- `Invariants`, `Ledger`, `Properties`, `Leaving`, `Battles`, `Scores`, `Names`: what every handler keeps, on every run
  of the server alone; what battles, scores and nicknames come to.
- `Failures`, `Accepting`: exactly when the server fails, in any state, and exactly which TURNs and accepts break what
  the rest relies on, with the runs that do.
- `Logs`, `Moves`, `Trace`, `Chronicle`, `Reports`, `Reckoning`, `Replica`: what each connection is sent. Every
  conforming step is one or two of nine moves, and a move sends each connection a message list that can be written
  down; every report is traced to the TURNs that were filed.
- `ClientSpec`, `Client`: the message switch and the key switch of the client, as functions and as an object.
- `Network`, `Links`, `ClientSteps`, `ServerSteps`, `System`, `Views`, `Cancelling`, `Listing`: any number of clients
  and the server, joined by connections that deliver in order; what holds on every execution.
- `Witness`, `Consent`, `Keys`, `Requests`: on every execution, what happens to users is traced to the keys that they
  pressed; and what each key and each request comes to when the server handles it.
- `Sorting`: nickname comparison and the comparator of the user list.
- `Queue`, `QueueThreads`: the circular array, and every interleaving of threads on it.
- `Codec`, `Layout`, `Rows`, `Framing`, `Receiving`: message bodies as bytes, byte order, the packed records, framing,
  and `recv_count`.

Several fields are history and exist only to state properties: the wins and losses of users, the number of turns and
of damaging turns of a challenge, the pair that each chid was created for, the battle that a TURN_R reports (the
message's own `chid` field is never filled in), and the log of everything sent. The notes of filed TURNs in `Reports`
and of keys pressed in `Witness` are kept by observers outside the system, for the same purpose.

## What is assumed, and what is discharged

The server alone is proved safe for a conforming environment (`Invariants.Conforms`): connection numbers are within
1..65534 and carry no second join while registered, an accept names the challenge's own pair in order, a TURN is not
the second action on a challenge that is still being asked, and `add_challenge` finds a free id in its 16 tries.
`Failures.StepFailsExactly` says exactly when a handler fails, in any state and for any event. What happens without
the assumptions is stated exactly by `Failures.JoinExactly` and `SecondJoinExactly` (joins), `Failures.TurnExactly`,
`JudgedEarlyExactly` and `EarlyJudge` (TURNs), with a failing run from the start in `Failures.EarlyTurnRun`, and
`Accepting.AcceptTracedExactly` (accepts). An accept with the two ids exchanged keeps the pairing of users and
challenges (`Properties.AcceptExactly`), yet lets the challenger start the battle alone and tells the wrong user that
it is user 1 (`Accepting.SwappedAccept`). `Ledger.ScoreLedger` needs no assumption about what clients send.
`Chronicle.ChallengeTrace` and `Reckoning.WinsAreBattles` add that no chid is used twice (`Trace.Fresh`), since a
reused chid would continue an old story.

In the composed system the assumptions about joins, accepts and TURNs are theorems (`System.EnvironmentDischarge`,
`System.Discharge`). What remains assumed there: connection numbers are within range and not used twice (the server
never closes a connection, server/server.c:688-691), chids are never used twice and are found within the 16 tries, and
the client's `acted` flag starts out true (`game_state_init` leaves it unset, as it does `state`, `turn_no` and
`is_user1`, which are taken to be offline, 0 and false). A connection may break at any moment and lose any suffix of
what the client sent.

Where code and evident intent differ, the model follows the code: `user_add` looks up the connection before it is
stored, so the value searched for is arbitrary; it looks up id 0 in every retry; the client's cancel names its last
opponent; UCHANGE scores are not byte-swapped; `recv_count` does not advance its destination; the UCHANGE row loop is
bounded by the count after it has been swapped; one pair of actions is discarded when `turn_no` wraps to 0.

## Model

| member | source | states |
|---|---|---|
| Server.GameServer.constructor | server/server.c:172-175 | the handler starts with empty trees |
| Server.GameServer.BroadcastExcept | server/server.c:48-53 | the walk over all users sends the message once to each except one, in id order |
| Server.GameServer.SendSnapshot | server/server.c:302-314 | the walk to one user sends every row, starting a new batch exactly when one is full, and nothing when there is no row |
| Server.GameServer.BroadcastPair | server/server.c:57-71 | one UCHANGE with both rows goes to everybody |
| Server.GameServer.CheckNewUser | server/server.c:194-238 | the error of a join, in the order of the checks, with the retry loop that only ever looks up id 0 |
| Server.GameServer.FileUser | server/server.c:218-234 | the three insertions succeed exactly when id and connection are free, and then all three trees and the count agree |
| Server.GameServer.HandleJoin | server/server.c:283-325 | a join equals its specification, error replies, snapshot and announcement included; the trees stay in agreement |
| Server.GameServer.DeleteUser | server/server.c:267-281 | the deletions, whose assert fires exactly when the nickname is not in its tree |
| Server.GameServer.Unfile | server/server.c:267-281 | while the trees agree no assert of a deletion fires, and the three trees and the count go on agreeing |
| Server.GameServer.Reward | server/server.c:395-408 | the winner's score rises by one bonus roll of 1 to 4, the loser's falls by one penalty roll of 0 to 3, and both are back online |
| Server.GameServer.Judge | server/server.c:327-413 | a judged turn equals its specification, and fails exactly when a user of the challenge is gone |
| Server.GameServer.EndBattle | server/server.c:393-412 | scores and states, the announcement of both rows, and the removal of the challenge |
| Server.GameServer.QuitUser | server/server.c:415-430 | leaving: the battle is judged against the user, who is announced offline and deleted |
| Server.GameServer.HandleDisconnect | server/server.c:432-438 | the end of a connection is the leaving of the user found by that connection, if there is one |
| Server.GameServer.HandleQuit | server/server.c:440-451 | a QUIT with the right id and key is a leaving, any other is ignored |
| Server.GameServer.FindChid | server/server.c:246-265 | the first of 16 random proposals that is free, 0 read as 1 |
| Server.GameServer.StartChallenge | server/server.c:504-528 | a start is refused if either user is busy or they are one, and otherwise filed and relayed with its new id |
| Server.GameServer.CancelChallenge | server/server.c:530-552 | a cancel withdraws the sender's own unanswered challenge and tells the other user, or does nothing |
| Server.GameServer.AcceptChallenge | server/server.c:572-592 | an accept starts the battle of the two users named, with the stored challenge, and judges its first turn |
| Server.GameServer.RejectChallenge | server/server.c:593-601 | a reject removes a challenge of the user named and tells the challenger, or does nothing |
| Server.GameServer.HandleChallenge | server/server.c:453-610 | start, cancel, accept, reject and every refusal equal their specification, in the order of the checks |
| Server.GameServer.HandleTurn | server/server.c:612-640 | an action is recorded once per user and turn, and the second one is judged |
| Server.GameServer.HandleAll | server/server.c:657-697 | handling any sequence of queue entries equals running the specification on it |
| Invariants.StepKeeps | server/server.c:283-640 | no conforming event makes a handler fail, and every invariant survives it: unique keys, pairing of users and challenges, hit points, scores |
| Invariants.EveryRunIsSafe | server/server.c:657-697 | on every conforming run from the start no assert fires and every judged turn finds both users |
| Properties.BattleBijection | server/server.c:504-610 | on every conforming run STARTED challenges and BATTLING users name each other, and there are two users to a challenge |
| Properties.AcceptExactly | server/server.c:572-592 | an accept keeps users and challenges paired exactly when it names the two users of the challenge, in either order |
| Accepting.SwappedAccept | server/server.c:453-592 | with the ids exchanged the challenger's own key passes, and it starts the battle without the challenged user, who is told that it is user 1 |
| Accepting.AcceptTracedExactly | server/server.c:572-592 | an accept keeps the invariants and what every connection's messages promise exactly when it names the stored pair in order |
| Failures.StepFailsExactly | server/server.c:194-640 | in any state and for any event: a handler fails exactly when the guard of one of the listed failures holds |
| Failures.TurnExactly | server/server.c:612-640 | a TURN keeps the invariants exactly when it is not the second action on a challenge still being asked; the first one does no harm |
| Failures.JudgedEarlyExactly | server/server.c:612-640 | in any state, a TURN makes the server judge a challenge still being asked exactly when it is the second action on it |
| Failures.EarlyJudge | server/server.c:327-392 | that judgement fails exactly when a user of the challenge is gone, and otherwise sends both users a turn of a battle that has not begun |
| Failures.EarlyTurnCanFail | server/server.c:327-392 | from any state with a fresh challenge, three events make judge_turn use a user that is gone |
| Failures.EarlyTurnRun | server/server.c:657-697 | such a run of six events from the start |
| Failures.JoinExactly | server/server.c:194-235 | the insertions of an otherwise valid join collide exactly when the id computed from the connection is registered |
| Failures.SecondJoinExactly | server/server.c:202-222 | a second join on a live connection fails an assert exactly when the unset field's value is no registered connection |
| Properties.TurnCounts | server/server.c:330-353 | a pair of actions costs the loser, and nobody else, damage mod 5 + 1 hit points, except when turn_no has wrapped to 0, when it is discarded |
| Properties.OutcomeExactly | lib/common.h:129-139 | of two known actions that differ exactly one beats the other, in a ring of three; equal or unknown actions draw |
| Properties.BattleEnds | server/server.c:354-368 | a judged turn decides a battle exactly when a user leaves, both standing, or one user is at -4..0, who loses; no battle sees a 20th damaging turn |
| Battles.StepBattle | server/server.c:327-430 | one step either lets a running battle go on, nobody's hit points rising and one user's falling by 1 to 5 exactly on a damaging turn, or ends it by one user's hit points being used up or by one user leaving; winner and loser get exactly one win and one loss and the rolled points, and both users' last word says so |
| Scores.StepRecords | server/server.c:393-430 | one step changes nobody's wins, losses or score, except that the two users of a battle that is over get one win with bonus mod 4 + 1 points and one loss with penalty mod 4 points less; a newcomer starts with nothing |
| Scores.LeaverRow | server/server.c:415-430 | the last message that everybody gets about a user who leaves is its row, offline, with the penalty taken off if it left a battle |
| Properties.KeysGuard | server/server.c:440-640 | nothing changes but the log unless the user a request acts for is registered and the key is its own |
| Properties.RunningBattleIsShort | server/server.c:345-353 | between handlers a running battle has had at most 18 damaging turns |
| Properties.TurnsCommute | server/server.c:627-640 | the two players' TURNs may arrive in either order: same state, same messages |
| Leaving.LeavingIsSafe | server/server.c:415-430 | leaving removes the user and its running battle, puts the opponent back online with one more win and exactly the rolled bonus, and changes nothing else |
| Leaving.LeftForGood | server/server.c:432-451 | after a user has left, the end of its connection or another QUIT changes nothing |
| Leaving.JoinAllOrNothing | server/server.c:283-325 | a join on a fresh connection registers exactly the newcomer under the connection's number, or changes nothing but for one reply |
| Names.KeyIsNameUpToCase | lib/common.c:33-35 | two nicknames are one tree key exactly when they have the same length and at each place the same character or the two cases of one letter |
| Names.JoinRefusals | server/server.c:194-238 | which JOIN on a fresh connection is refused and why, in order: full server, the unset field naming a registered connection, a name taken up to case; no other is |
| Names.NamesDiffer | server/server.c:194-238 | on every run, whatever is sent, no two users have names that differ only in case |
| Requests.JoinTells | server/server.c:283-325 | a JOIN that succeeds tells the newcomer its name, id and key and then the table, every other user the newcomer's row, and nobody else anything |
| Requests.LeavesExactly | server/server.c:415-451 | a user stops being registered exactly when a QUIT shows its id and key or its connection ends |
| Requests.ChallengeComesTo | server/server.c:453-610 | a request about a challenge is refused for exactly one reason, told to its sender alone, or the challenge is made, withdrawn, accepted or rejected with every message that this sends |
| Requests.TurnComesTo | server/server.c:612-640 | a TURN that does not count changes nothing; one that counts files its action for its sender, and the second is judged |
| Requests.FirstFreeExactly | server/server.c:246-259 | the id found is k exactly when some try proposes k, k is not in use, and every earlier try proposes an id in use |
| Requests.NoneFreeExactly | server/server.c:246-265 | the search fails exactly when every try proposes an id in use |
| Ledger.ScoreLedger | server/server.c:395-412 | on every run, whatever is sent: wins - 3 losses <= score <= 4 wins, total wins = total losses = battles removed, keys unique |
| Moves.StepIsPlan | server/server.c:283-640 | every conforming step is one or two of nine moves, each possible when its time comes |
| Moves.MoveLog | server/server.c:48-71 | what a move sends to each connection, message by message |
| Trace.MoveTraces | server/server.c:504-610 | each connection is offered, started and told the turns of one battle at a time, and its messages agree with the user's state |
| Chronicle.MoveStages | server/server.c:504-610 | a challenge goes from asked to running to removed, or from asked to removed, and never back |
| Chronicle.ChallengeTrace | server/server.c:327-412 | on every run both users get one OK each (is_id1 true to user1 only), then the same turns, the k-th numbered k mod 65536, hit points changing from each to the next as its actions dictate, at most 19 of them damaging, the last and only the last final; nobody else hears of it |
| Reports.ReportsAreFiled | server/server.c:327-392 | on every run every report in what a connection was sent has its cause: an accept for the first turn, a leave for the last, otherwise a second action; and then its two actions are those of the last TURN that counted for user 1 and for user 2 |
| Reckoning.WinsAreBattles | server/server.c:393-412 | on every run total wins, and total losses, are the battles begun less those running: the STARTED challenges removed |
| Replica.ReplicaAgreement | server/server.c:302-324 | between handlers, for every registered user, folding all it was sent gives the server's table, its own state, and no notice to go |
| Replica.SnapshotBatching | server/server.c:24-47 | a snapshot of n users is ceil(n/16) messages, full but for a non-empty last, that list all users once in id order; none for no user |
| Client.GameClient.FileUser | client/client.c:1037-1079 | one changed row: deleted, updated or added; the counter stays the table's size and its assert cannot fire |
| Client.GameClient.Change | client/client.c:1013-1085 | the rows of a UCHANGE in order, up to the client's own row going offline |
| Client.GameClient.ReceiveTurn | client/client.c:881-927 | hit points from the client's own side; leave to act unless the battle is over |
| Client.GameClient.ReceiveChallenge | client/client.c:928-968 | a challenge is offered to the user, or rejected at once if it already waits for something |
| Client.GameClient.ReceiveAnswer | client/client.c:969-1012 | an OK starts the battle on the right side; anything else ends the wait |
| Client.GameClient.Receive | client/client.c:864-1086 | every message of ui_main and of the login screen equals its specification, with what the client sends back |
| Client.GameClient.Press | client/client.c:1147-1280 | every key equals its specification: cancel, accept, reject, challenge, act, quit |
| Client.GameClient.Login | client/client.c:402-408 | one JOIN, then waiting |
| ClientSteps.ArriveLinked | client/client.c:881-1012 | taking a message keeps the connection's invariant, the turn token passing to the client |
| ClientSteps.PressLinked | client/client.c:1147-1280 | every key keeps it, the token passing to what the client sends |
| ServerSteps.MoveLinked | server/server.c:327-610 | every move of the server keeps it for every connection, a judged turn exchanging two flags for two new tokens |
| ServerSteps.TurnLinked | server/server.c:612-640 | filing a TURN keeps it, the token passing to the server's flag |
| System.NeverFails | server/server.c:283-640 | no execution of server and clients makes the server fail |
| System.EnvironmentDischarge | client/client.c:928-1280 | on every execution a JOIN comes from an unregistered connection, an accept or reject names the stored pair, a TURN names a battle of its sender that is running or over |
| System.TurnToken | client/client.c:881-927 | each user of a running battle has exactly one of: TURN_R in flight, leave to act, TURN in flight, acted flag; and it is for the current turn |
| System.NoTurnLost | server/server.c:612-640 | no TURN of a running battle is dropped or counted in another turn |
| System.ClientsAgree | client/client.c:1013-1085 | a playing client that has taken everything sent to it shows the server's table, its own state, its key and its battle, and knows which user it is and its opponent |
| System.RegisteredIsIn | client/client.c:409-440 | the client of a registered user that has taken everything sent to it has left the login screen |
| Witness.NothingIsMadeUp | client/client.c:1147-1280 | on every execution every user goes by the name typed on its connection, every challenge was made by the challenger's key, and every battle that began was consented to by the challenged user's 'y' or 'Y' pressed while that challenge was on its screen |
| Witness.ReportsAreChosen | client/client.c:1223-1247 | on every execution every report sent is the first, on an accept; the last, on a leave; or gives the actions that the two users chose by key for exactly this turn |
| Consent.OnlyAnswersAnswer | client/client.c:1160-1180 | while a challenge is on the screen, y, Y, n and N each put one request and end the wait, and no other key does anything |
| Consent.YesStarts | client/client.c:1160-1180 | what y puts, handled while the challenge is asked, starts the battle and tells both users if both are online, and otherwise is refused |
| Consent.NoRefuses | client/client.c:1160-1180 | what n puts, handled while the challenge is asked, removes exactly that challenge and tells its challenger alone that it is rejected |
| Consent.OfferIsTaken | client/client.c:928-963 | a relayed challenge is shown with its id and challenger by a client that waits for nothing; any other client stays as it is and puts one request |
| Consent.BusyRefuses | client/client.c:951-963 | and that request, handled while the challenge is asked, removes exactly that challenge and tells its challenger alone that it is rejected |
| Keys.ChoosingPuts | client/client.c:1195-1222 | choosing a user of the menu puts one request and waits, unless the user is oneself, when nothing happens |
| Keys.ChoosingChallenges | client/client.c:1195-1222 | choosing a user, when handled, challenges exactly that user under a new id if both are online, and otherwise only tells the chooser why not |
| Keys.WithdrawingPuts | client/client.c:1148-1159 | while waiting for an answer any key puts one request and ends the wait |
| Keys.WithdrawingWithdraws | client/client.c:1148-1159 | a key pressed while waiting for an answer, when handled, withdraws the user's last challenge exactly if it is unanswered and its own, the user online, and the opponent named registered |
| Keys.ActingPuts | client/client.c:1223-1247 | a battle key puts a TURN with its own action, for the battle and turn on the screen, exactly while the client may act |
| Keys.ActingFiles | server/server.c:612-640 | and that action is filed for this user in the turn it was meant for |
| Keys.QuittingLeaves | client/client.c:1269-1321 | leaving by key, when handled, removes exactly this user |
| Keys.AnswerEndsWait | client/client.c:969-1012 | any CHALLENGE_R ends the wait; a good one gives the client its battle, its side and its opponent, any other changes nothing else |
| Keys.TypingPuts | client/client.c:402-408 | typing a name at the login screen puts exactly a JOIN with that name |
| Keys.JoinAnswered | client/client.c:426-440 | a refused JOIN leads back to typing a name, an accepted one into the game under the connection's number |
| Keys.SentAwayExactly | client/client.c:1016-1026 | a client in the game is sent away exactly by its own row going offline, and then puts a QUIT |
| Views.MirroredHealth | client/client.c:881-895 | the two players' hit points mirror each other and are the challenge's |
| Views.BannersAreTrue | client/client.c:881-927 | on every execution, whenever a client takes a report, "you lost" is shown exactly when its own hit points fall by 1 to 5, "you won" exactly when its opponent's do, and defeat at the end to whoever's are used up |
| Views.BannersOppose | client/client.c:896-921 | on every execution, whenever the two players take the same report, "you won" is shown to one exactly when "you lost" is shown to the other, whose hit points fall by 1 to 5; at the end one is told of victory and the other of defeat |
| Cancelling.CancelExactly | server/server.c:530-552 | the exact condition under which a cancel withdraws a challenge, and which one |
| Cancelling.FirstCancelFails | client/client.c:1148-1159 | the cancel of a client that never had an opponent is refused and the challenge stays |
| Sorting.NickCmpExactly | lib/common.c:33-35 | the comparison is negative, zero or positive exactly when the first nickname is earlier in a dictionary that takes no notice of case, the same up to case, or later |
| Sorting.SubtractionExactly | client/client.c:653 | the 32-bit score difference has the right sign exactly when the true difference is in range |
| Sorting.ComparatorIsOrder | client/client.c:648-663 | in range, the comparator is: by name, or by descending score, ties broken by the other |
| Sorting.SortOrder | client/client.c:648-663 | on every run with fewer than 2^28 finished battles a user, both sort modes are total preorders of the server's users |
| Listing.ClientSortOrder | client/client.c:648-663 | on every execution with fewer than 2^28 finished battles, at any moment, both sort modes are total preorders of each playing client's own list |
| Listing.UpToDateSortOrder | client/client.c:648-663 | a client that has taken everything sent to it sorts the server's users, if each has finished fewer than 2^28 battles |
| Queue.AddIsAppend | lib/queue.c:21-40 | an element is added at the end exactly when there is room, and otherwise the caller waits if it blocks and is told if not; the array stays well formed |
| Queue.TakeIsHead | lib/queue.c:42-60 | the oldest element is taken exactly when there is one, and otherwise the caller waits if it blocks and is told if not |
| Queue.BlockingQueue.constructor | lib/queue.c:10-19 | a new queue is empty |
| Queue.BlockingQueue.Add | lib/queue.c:21-40 | one pass through the critical section of queue_add, with its result |
| Queue.BlockingQueue.Take | lib/queue.c:42-60 | one pass through the critical section of queue_take, with its result |
| QueueThreads.NoLostWakeup | lib/queue.c:21-60 | on every interleaving, waiters are never owed more than the pending signals and awoken threads will see to; taker and adder are never both stuck |
| QueueThreads.QueueRefinesFifo | lib/queue.c:21-60 | on every interleaving, added = taken ++ contents; each thread's elements come out in its own order |
| Codec.ConvertField | lib/messages.c:10-31 | one field is byte-reversed in place on a little-endian host |
| Codec.ConvertBody | lib/messages.c:32-94 | the conversion of a body in place is the same permutation of bytes whichever way it goes |
| Codec.ConvertRows | lib/messages.c:44-51 | the row loop, bounded by the count after its conversion and by the size of the array |
| Codec.FieldsAreDisjoint | lib/common.h:160-240 | the converted fields of every message overlap nowhere |
| Codec.RoundTrip | lib/messages.c:221-229 | every message but UCHANGE survives the conversion out and back in, on either kind of host |
| Codec.RowsRoundTrip | lib/messages.c:44-51 | UCHANGE survives it exactly when the rows converted one way only read the same both ways |
| Codec.FormRoundTrip | lib/messages.c:162-229 | a message of good form survives it exactly when no swap happens, it counts no rows, or the rows past its count read the same both ways |
| Codec.FieldsTravel | lib/messages.c:10-94 | every converted field reads the same at the receiver whatever the two hosts' byte orders |
| Codec.RowsCross | lib/messages.c:44-51 | between hosts of different byte order count, ids and states arrive; a score arrives exactly if its bytes are a palindrome |
| Layout.BodiesFit | lib/common.h:153-242 | the length of every body is the sum of its record's members |
| Layout.EveryIntIsConverted | lib/messages.c:32-94 | the fields converted are exactly the integer members of the record |
| Layout.RowsAreConverted | lib/messages.c:44-51 | of a UCHANGE the count is converted, and of the rows every integer but the score |
| Layout.EveryIntTravels | lib/messages.c:10-94 | every integer member of every message but UCHANGE arrives, whatever the two hosts |
| Layout.FormExactly | lib/messages.c:162-194 | a message has good form exactly when kind and length are right, every text member ends within its space, and a UCHANGE counts at most 16 rows whose texts end too |
| Layout.TakenIsGood | lib/messages.c:231-249 | whatever is received has good form and uses up exactly its head and its record |
| Rows.AddRow | lib/messages.c:301-320 | a row is written in place exactly when the message is not full |
| Rows.EmptyIsBuilt | lib/messages.c:288-292 | a new UCHANGE holds no rows and is zero |
| Rows.AddBuilds | lib/messages.c:288-320 | adding a row adds exactly that row and leaves the rest of the body zero |
| Rows.BuiltTravels | lib/messages.c:288-320 | a UCHANGE that was built row by row is of good form and survives the wire |
| Rows.RowsReadBack | lib/messages.c:301-320 | and the receiver on a like host reads exactly the rows that were added |
| Framing.HeadOut | lib/messages.c:95-99 | the head is in network byte order whatever the host |
| Framing.StreamFraming | lib/messages.c:231-262 | messages of good form sent one after the other are received one by one with no byte left, and are the same exactly when their UCHANGEs are clean past the count |
| Receiving.RecvCount | lib/common.c:3-14 | the loop of recv_count, which writes every piece at the start of the buffer |
| Receiving.RightExactly | lib/common.c:3-14 | recv_count delivers whatever bytes arrive exactly when they arrive in at most one piece |

## Left out

- Drawing, windows, menus, focus and the login form: the user interface only. The command that the focused menu makes
  of a key is a parameter of the key switch.
- SENDMSG, in the server and in the client: it reads the registry and changes nothing.
- Sockets, threads and signals as such: connections are sequences of messages in each direction, and a failed send is
  ignored as in the code.
- A client at the login screen that loses its connection: it is modelled as waiting for ever.
- Shared records: the server's user and challenge records are values in maps that the handler object updates, and the
  trees by connection and by nickname hold the id of the record. The model does not capture two trees pointing to one
  record, only that they agree on it.
- Tree internals (`tsearch`, `tfind`, `tdelete`, `twalk_r`) and `qsort_r`: maps and a walk in key order; the menu's
  sort is represented by its comparator.
- Memory: allocation, leaked challenges and queue entries.
- Key secrecy and random quality: keys are equality guards, random results are arbitrary.
- Nickname legality: the server does not check it.
- Logging, argument parsing, message texts.
- Negative connection numbers in the unset field read by `user_add`: they behave like any number of no registered
  connection.
- Framing.Received: each of the two `recv_count` calls is filled by one recv; `Receiving.RightExactly` says that
  nothing more could be promised.
- Rows.RowsReadBack: for hosts of the same byte order; `Codec.RowsCross` says what arrives otherwise.
