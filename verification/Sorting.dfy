/** The orders of nicknames and of the user list (lib/common.c, client/client.c). */
module Sorting {
  import opened Protocol
  import opened ServerSpec
  import opened Ledger
  import opened Names

  // ---- strncasecmp ----

  /** The first difference of two case-folded strings; the end of a string compares as NUL. */
  function Compare(a: string, b: string): int
    decreases |a| + |b|
  {
    if a == "" then (if b == "" then 0 else -(b[0] as int))
    else if b == "" then a[0] as int
    else if a[0] != b[0] then a[0] as int - b[0] as int
    else Compare(a[1..], b[1..])
  }

  /** nick_cmp; every nickname ends within NICKNAME_LEN. */
  function NickCmp(a: Nick, b: Nick): int {
    Compare(FoldString(a), FoldString(b))
  }

  predicate NoNul(a: string) {
    forall i | 0 <= i < |a| :: a[i] != '\0'
  }

  lemma {:induction false} FoldHasNoNul(a: string)
    requires NoNul(a)
    ensures NoNul(FoldString(a))
    decreases |a|
  {
    if a == "" {
    } else {
      FoldHasNoNul(a[1..]);
    }
  }

  lemma {:induction false} CompareZero(a: string, b: string)
    requires NoNul(a) && NoNul(b)
    ensures Compare(a, b) == 0 <==> a == b
    decreases |a| + |b|
  {
    if a == "" || b == "" {
    } else {
      CompareZero(a[1..], b[1..]);
      assert a == [a[0]] + a[1..] && b == [b[0]] + b[1..];
    }
  }

  lemma {:induction false} CompareFlips(a: string, b: string)
    ensures Compare(b, a) == -Compare(a, b)
    decreases |a| + |b|
  {
    if a == "" || b == "" {
    } else {
      CompareFlips(a[1..], b[1..]);
    }
  }

  /** A character's place in the order: that of its lower-case form. */
  function Rank(c: char): int {
    c as int + if 'A' <= c <= 'Z' then 32 else 0
  }

  /** After `n` characters that are the same up to case, `a` ends or goes on with the character of lower rank. */
  predicate EarlierAt(a: string, b: string, n: nat) {
    && n <= |a| && n < |b| && SameUpToCase(a[..n], b[..n])
    && (n < |a| ==> Rank(a[n]) < Rank(b[n]))
  }

  /** The order of a dictionary that takes no notice of case. */
  ghost predicate Earlier(a: string, b: string) {
    exists n: nat :: EarlierAt(a, b, n)
  }

  lemma RankIsFolded(c: char)
    ensures FoldChar(c) as int == Rank(c)
  {
  }

  lemma EarlierShift(a: string, b: string, n: nat)
    requires a != "" && b != "" && SameLetter(a[0], b[0])
    ensures EarlierAt(a, b, n + 1) <==> EarlierAt(a[1..], b[1..], n)
  {
    if n + 1 <= |a| && n + 1 < |b| {
      UpToCaseStep(a[..n + 1], b[..n + 1]);
      assert a[..n + 1][1..] == a[1..][..n] && b[..n + 1][1..] == b[1..][..n];
    }
  }

  /** The sign of the comparison says which name is earlier. */
  lemma {:induction false} CompareExactly(a: string, b: string)
    requires NoNul(a) && NoNul(b)
    ensures Compare(FoldString(a), FoldString(b)) < 0 <==> Earlier(a, b)
    decreases |a|
  {
    if a == "" || b == "" {
      assert b != "" ==> EarlierAt("", b, 0);
    } else {
      RankIsFolded(a[0]);
      RankIsFolded(b[0]);
      FoldCharExactly(a[0], b[0]);
      CompareExactly(a[1..], b[1..]);
      if SameLetter(a[0], b[0]) {
        EarlierTails(a, b);
      } else {
        EarlierHeads(a, b);
      }
    }
  }

  lemma EarlierTails(a: string, b: string)
    requires a != "" && b != "" && SameLetter(a[0], b[0])
    ensures Earlier(a, b) <==> Earlier(a[1..], b[1..])
  {
    FoldCharExactly(a[0], b[0]);
    RankIsFolded(a[0]);
    RankIsFolded(b[0]);
    if Earlier(a, b) {
      var n: nat :| EarlierAt(a, b, n);
      EarlierShift(a, b, n - 1);
    }
    if Earlier(a[1..], b[1..]) {
      var n: nat :| EarlierAt(a[1..], b[1..], n);
      EarlierShift(a, b, n);
    }
  }

  lemma EarlierHeads(a: string, b: string)
    requires a != "" && b != "" && !SameLetter(a[0], b[0])
    ensures Earlier(a, b) <==> Rank(a[0]) < Rank(b[0])
  {
    if Rank(a[0]) < Rank(b[0]) {
      assert EarlierAt(a, b, 0);
    }
    if Earlier(a, b) {
      var n: nat :| EarlierAt(a, b, n);
      EarlierStarts(a, b, n);
    }
  }

  lemma EarlierStarts(a: string, b: string, n: nat)
    requires a != "" && EarlierAt(a, b, n)
    ensures n > 0 ==> SameLetter(a[0], b[0])
  {
    if n > 0 {
      assert a[..n][0] == a[0] && b[..n][0] == b[0];
    }
  }

  /** nick_cmp is negative, zero or positive exactly when the first nickname is earlier, the same up to case, or later;
      the server files users under the same keys. */
  lemma NickCmpExactly(a: Nick, b: Nick)
    ensures NickCmp(a, b) < 0 <==> Earlier(a, b)
    ensures NickCmp(a, b) == 0 <==> SameUpToCase(a, b)
    ensures NickCmp(a, b) > 0 <==> Earlier(b, a)
    ensures NickCmp(a, b) == 0 <==> FoldNick(a) == FoldNick(b)
  {
    FoldHasNoNul(a);
    FoldHasNoNul(b);
    CompareZero(FoldString(a), FoldString(b));
    KeyIsNameUpToCase(a, b);
    CompareExactly(a, b);
    CompareExactly(b, a);
    CompareFlips(FoldString(a), FoldString(b));
  }

  lemma {:induction false} CompareChains(a: string, b: string, c: string)
    requires NoNul(a) && NoNul(b) && NoNul(c)
    requires Compare(a, b) <= 0 && Compare(b, c) <= 0
    ensures Compare(a, c) <= 0
    ensures Compare(a, b) < 0 || Compare(b, c) < 0 ==> Compare(a, c) < 0
    decreases |a| + |b| + |c|
  {
    CompareZero(a, b);
    CompareZero(b, c);
    if a == "" || b == "" || c == "" {
    } else if a[0] == b[0] == c[0] {
      CompareChains(a[1..], b[1..], c[1..]);
    }
  }

  // ---- cmp_item_for_sort ----

  datatype SortBy = ByName | ByScore

  datatype Item = Item(name: Nick, score: int)

  const INT32 := 0x1_0000_0000

  /** An int32_t that was computed without regard to its range. */
  function Wrapped(x: int): int {
    (x + INT32 / 2) % INT32 - INT32 / 2
  }

  function CmpItems(i: Item, j: Item, mode: SortBy): int {
    var byName := NickCmp(i.name, j.name);
    var byScore := Wrapped(j.score - i.score);
    match mode
    case ByName => if byName == 0 then byScore else byName
    case ByScore => if byScore == 0 then byName else byScore
  }

  /** The 32-bit difference of two 32-bit scores has the sign of their difference exactly when that is in range. */
  lemma SubtractionExactly(a: int, b: int)
    requires -INT32 / 2 <= a < INT32 / 2 && -INT32 / 2 <= b < INT32 / 2
    ensures
      ((Wrapped(b - a) < 0 <==> b < a) && (Wrapped(b - a) == 0 <==> b == a)) <==> -INT32 / 2 <= b - a < INT32 / 2
  {
  }

  /** Scores whose differences, either way round, are in range. */
  predicate Near(i: Item, j: Item) {
    -INT32 / 2 < i.score - j.score < INT32 / 2
  }

  /** `i` sorts before `j`, or they tie. */
  ghost predicate Before(i: Item, j: Item, mode: SortBy) {
    match mode
    case ByName => Earlier(i.name, j.name) || (SameUpToCase(i.name, j.name) && i.score >= j.score)
    case ByScore => i.score > j.score || (i.score == j.score && !Earlier(j.name, i.name))
  }

  /** Within range, the comparator is the order that the menu promises: by name, or by descending score, ties broken by
      the other. */
  lemma ComparatorIsOrder(i: Item, j: Item, mode: SortBy)
    requires Near(i, j)
    ensures CmpItems(i, j, mode) <= 0 <==> Before(i, j, mode)
    ensures CmpItems(i, j, mode) >= 0 <==> Before(j, i, mode)
  {
    NickCmpExactly(i.name, j.name);
    NickCmpExactly(j.name, i.name);
    assert Wrapped(j.score - i.score) == j.score - i.score;
  }

  lemma BeforeChains(i: Item, j: Item, k: Item, mode: SortBy)
    requires Before(i, j, mode) && Before(j, k, mode)
    ensures Before(i, k, mode)
  {
    NickCmpExactly(i.name, j.name);
    NickCmpExactly(j.name, k.name);
    NickCmpExactly(i.name, k.name);
    FoldHasNoNul(i.name);
    FoldHasNoNul(j.name);
    FoldHasNoNul(k.name);
    var a, b, c := FoldString(i.name), FoldString(j.name), FoldString(k.name);
    if Compare(a, b) <= 0 && Compare(b, c) <= 0 {
      CompareChains(a, b, c);
    }
  }

  /** What qsort_r needs: exchanging the arguments reverses the sign, and the order is transitive. */
  ghost predicate TotalPreorder(items: set<Item>, mode: SortBy) {
    && (forall i, j | i in items && j in items :: CmpItems(i, j, mode) <= 0 <==> CmpItems(j, i, mode) >= 0)
    && (forall i, j | i in items && j in items :: CmpItems(i, j, mode) <= 0 || CmpItems(j, i, mode) <= 0)
    && (forall i, j, k | i in items && j in items && k in items ::
          CmpItems(i, j, mode) <= 0 && CmpItems(j, k, mode) <= 0 ==> CmpItems(i, k, mode) <= 0)
  }

  lemma NearIsPreorder(items: set<Item>, mode: SortBy)
    requires forall i, j | i in items && j in items :: Near(i, j)
    ensures TotalPreorder(items, mode)
  {
    forall i, j | i in items && j in items
      ensures CmpItems(i, j, mode) <= 0 <==> CmpItems(j, i, mode) >= 0
      ensures CmpItems(i, j, mode) <= 0 || CmpItems(j, i, mode) <= 0
    {
      ComparatorIsOrder(i, j, mode);
      ComparatorIsOrder(j, i, mode);
      CompareFlips(FoldString(i.name), FoldString(j.name));
    }
    forall i, j, k | i in items && j in items && k in items && CmpItems(i, j, mode) <= 0 && CmpItems(j, k, mode) <= 0
      ensures CmpItems(i, k, mode) <= 0
    {
      ComparatorIsOrder(i, j, mode);
      ComparatorIsOrder(j, k, mode);
      ComparatorIsOrder(i, k, mode);
      BeforeChains(i, j, k, mode);
    }
  }

  const MANY_BATTLES := 0x1000_0000

  /** The items of the user list. */
  function Items(users: map<nat, User>): set<Item> {
    set id | id in users :: Item(users[id].nick, users[id].score)
  }

  /** On every run, while every user has finished fewer than 2^28 battles, the score subtraction cannot overflow and
      both sort modes order the user list. */
  lemma SortOrder(es: seq<Event>, mode: SortBy)
    requires Run(INITIAL, es).Next?
    requires
      var users := Run(INITIAL, es).s.users;
      forall id | id in users :: users[id].wins + users[id].losses < MANY_BATTLES
    ensures
      var items := Items(Run(INITIAL, es).s.users);
      TotalPreorder(items, mode) && forall i, j | i in items && j in items :: Near(i, j)
  {
    var users := Run(INITIAL, es).s.users;
    ScoreLedger(es);
    forall i, j | i in Items(users) && j in Items(users)
      ensures Near(i, j)
    {
      var a: nat :| a in users && i == Item(users[a].nick, users[a].score);
      var b: nat :| b in users && j == Item(users[b].nick, users[b].score);
    }
    NearIsPreorder(Items(users), mode);
  }
}
