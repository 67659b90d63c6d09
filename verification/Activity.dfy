/**
 The capped sorted set of recently active users, against the history of every touch.
 A list holds each user once, best first: by time, and at equal times by the text of the user's id.
 */
module Activity {
  import opened Common
  import opened Text

  const CAP := 200

  datatype Entry = Entry(user: int, at: real)

  /** `touch` is two commands: others may come between them. */
  datatype Action = Add(user: int, at: real) | Trim

  // ---------------------------------------------------------------- the order of the sorted set

  predicate TextAbove(a: string, b: string)
    decreases |a|
  {
    a != [] && (b == [] || a[0] > b[0] || (a[0] == b[0] && TextAbove(a[1..], b[1..])))
  }

  predicate Above(a: Entry, b: Entry) {
    a.at > b.at || (a.at == b.at && TextAbove(Print(a.user), Print(b.user)))
  }

  lemma {:induction false} TextOrder(a: string, b: string, c: string)
    ensures !(TextAbove(a, b) && TextAbove(b, a))
    ensures a != b ==> TextAbove(a, b) || TextAbove(b, a)
    ensures TextAbove(a, b) && TextAbove(b, c) ==> TextAbove(a, c)
    decreases |a|
  {
    if a != [] && b != [] {
      TextOrder(a[1..], b[1..], if c == [] then [] else c[1..]);
      assert a[1..] == b[1..] && a[0] == b[0] ==> a == b;
    }
  }

  /** One user's entries are ordered by time, different users' entries one way or the other. */
  lemma EntryOrder(a: Entry, b: Entry, c: Entry)
    ensures !(Above(a, b) && Above(b, a))
    ensures a.user != b.user ==> Above(a, b) || Above(b, a)
    ensures Above(a, b) && Above(b, c) ==> Above(a, c)
  {
    hide Print, ParseInt;
    TextOrder(Print(a.user), Print(b.user), Print(c.user));
    ParsePrinted(a.user);
    ParsePrinted(b.user);
  }

  predicate Ranked(s: seq<Entry>) {
    forall i, j :: 0 <= i < j < |s| ==> Above(s[i], s[j]) && s[i].user != s[j].user
  }

  // ---------------------------------------------------------------- the commands

  function Remove(s: seq<Entry>, user: int): seq<Entry> {
    if s == [] then [] else if s[0].user == user then s[1..] else [s[0]] + Remove(s[1..], user)
  }

  function Insert(s: seq<Entry>, e: Entry): seq<Entry> {
    if s == [] then [e] else if Above(e, s[0]) then [e] + s else [s[0]] + Insert(s[1..], e)
  }

  function First(s: seq<Entry>, n: nat): seq<Entry> {
    if |s| <= n then s else s[..n]
  }

  /** ZADD: the member's score is replaced. */
  function Touched(s: seq<Entry>, user: int, at: real): seq<Entry> {
    Insert(Remove(s, user), Entry(user, at))
  }

  function Step(s: seq<Entry>, a: Action): seq<Entry> {
    match a
    case Add(user, at) => Touched(s, user, at)
    case Trim => First(s, CAP)
  }

  function Run(s: seq<Entry>, actions: seq<Action>): seq<Entry>
    decreases |actions|
  {
    if actions == [] then s else Run(Step(s, actions[0]), actions[1..])
  }

  /** The same touches, and nothing ever trimmed. */
  function History(s: seq<Entry>, actions: seq<Action>): seq<Entry>
    decreases |actions|
  {
    if actions == [] then s
    else History(if actions[0].Add? then Step(s, actions[0]) else s, actions[1..])
  }

  /** No user is touched at an earlier time than before. */
  predicate Forward(s: seq<Entry>, actions: seq<Action>)
    decreases |actions|
  {
    actions == [] ||
    (&& (actions[0].Add? ==> NotBefore(s, actions[0].user, actions[0].at))
     && Forward(if actions[0].Add? then Step(s, actions[0]) else s, actions[1..]))
  }

  predicate NotBefore(s: seq<Entry>, user: int, at: real) {
    forall i :: 0 <= i < |s| && s[i].user == user ==> s[i].at <= at
  }

  // ---------------------------------------------------------------- lists stay ranked

  lemma {:induction false} RemoveKeepsRanked(s: seq<Entry>, user: int)
    requires Ranked(s)
    ensures Ranked(Remove(s, user))
    ensures forall e :: e in Remove(s, user) <==> e in s && e.user != user
  {
    hide Above;
    if s != [] && s[0].user != user {
      RemoveKeepsRanked(s[1..], user);
      var rest := Remove(s[1..], user);
      forall i | 0 <= i < |rest|
        ensures Above(s[0], rest[i]) && s[0].user != rest[i].user
      {
        assert rest[i] in s[1..];
      }
      assert s == [s[0]] + s[1..];
    } else if s != [] {
      assert s == [s[0]] + s[1..];
    }
  }

  lemma {:induction false} InsertKeepsRanked(s: seq<Entry>, e: Entry)
    requires Ranked(s) && forall i :: 0 <= i < |s| ==> s[i].user != e.user
    ensures Ranked(Insert(s, e))
    ensures forall x :: x in Insert(s, e) <==> x in s || x == e
  {
    hide Above;
    if s != [] {
      if Above(e, s[0]) {
        forall i | 0 <= i < |s|
          ensures Above(e, s[i])
        {
          EntryOrder(e, s[0], s[i]);
        }
      } else {
        EntryOrder(e, s[0], s[0]);
        InsertKeepsRanked(s[1..], e);
        var rest := Insert(s[1..], e);
        forall i | 0 <= i < |rest|
          ensures Above(s[0], rest[i]) && s[0].user != rest[i].user
        {
          assert rest[i] in rest;
        }
        assert s == [s[0]] + s[1..];
      }
    }
  }

  lemma TouchedIsRanked(s: seq<Entry>, user: int, at: real)
    requires Ranked(s)
    ensures Ranked(Touched(s, user, at))
    ensures forall e :: e in Touched(s, user, at) <==> e == Entry(user, at) || (e in s && e.user != user)
  {
    RemoveKeepsRanked(s, user);
    InsertKeepsRanked(Remove(s, user), Entry(user, at));
  }

  // ---------------------------------------------------------------- the best n depend only on the best n

  lemma {:induction false} RemoveFirst(s: seq<Entry>, user: int, n: nat)
    ensures First(Remove(s, user), n) == First(Remove(First(s, n + 1), user), n)
  {
    if |s| > n + 1 {
      var cut := First(s, n + 1);
      assert cut == [s[0]] + First(s[1..], n) && cut[1..] == First(s[1..], n);
      if s[0].user == user {
        assert First(s[1..], n) == First(First(s[1..], n), n);
      } else if n > 0 {
        RemoveFirst(s[1..], user, n - 1);
        var rest, cutRest := Remove(s[1..], user), Remove(First(s[1..], n), user);
        assert First([s[0]] + rest, n) == [s[0]] + First(rest, n - 1);
        assert First([s[0]] + cutRest, n) == [s[0]] + First(cutRest, n - 1);
      }
    }
  }

  /** An entry that does not sink takes part in the best `n` as if the rest were not there. */
  lemma {:induction false} TouchFirst(s: seq<Entry>, user: int, at: real, n: nat)
    requires Ranked(s) && NotBefore(s, user, at) && n >= 1
    ensures First(Touched(s, user, at), n) == First(Touched(First(s, n), user, at), n)
  {
    hide Above;
    var e := Entry(user, at);
    if |s| > n {
      var cut := First(s, n);
      assert cut == [s[0]] + s[1..n];
      if s[0].user == user {
        RisesToTop(s, e);
        RisesToTop(cut, e);
        assert cut[1..] == s[1..n];
      } else if Above(e, s[0]) {
        var j := if n >= 2 then n - 2 else 0;
        RemoveFirst(s[1..], user, j);
        assert First(s[1..], j + 1) == s[1..j + 2];
        assert Remove(s, user) == [s[0]] + Remove(s[1..], user);
        assert Remove(cut, user) == [s[0]] + Remove(s[1..n], user);
        RemoveLength(s[1..], user);
        RemoveLength(s[1..n], user);
        if n >= 2 {
          assert First([e] + ([s[0]] + Remove(s[1..], user)), n) == [e] + ([s[0]] + First(Remove(s[1..], user), j));
        }
      } else if n == 1 {
        assert Touched(s, user, at)[0] == s[0];
      } else {
        TouchFirst(s[1..], user, at, n - 1);
        assert First(s[1..], n - 1) == s[1..n];
        assert Touched(s, user, at) == [s[0]] + Touched(s[1..], user, at);
        assert Touched(cut, user, at) == [s[0]] + Touched(s[1..n], user, at);
        assert First([s[0]] + Touched(s[1..], user, at), n) == [s[0]] + First(Touched(s[1..], user, at), n - 1);
      }
    }
  }

  lemma {:induction false} RemoveLength(s: seq<Entry>, user: int)
    ensures |s| - 1 <= |Remove(s, user)| <= |s|
  {
    if s != [] {
      RemoveLength(s[1..], user);
    }
  }

  lemma RisesToTop(s: seq<Entry>, e: Entry)
    requires Ranked(s) && s != [] && s[0].user == e.user && s[0].at <= e.at
    ensures Touched(s, e.user, e.at) == [e] + s[1..]
  {
    if |s| > 1 {
      EntryOrder(s[0], s[1], s[1]);
    }
  }

  // ---------------------------------------------------------------- the capped set is the history's top

  predicate SameTop(s: seq<Entry>, full: seq<Entry>) {
    Ranked(s) && Ranked(full) && First(s, CAP) == First(full, CAP) && forall e :: e in s ==> e in full
  }

  lemma StepKeepsTop(s: seq<Entry>, full: seq<Entry>, a: Action)
    requires SameTop(s, full) && (a.Add? ==> NotBefore(full, a.user, a.at))
    ensures SameTop(Step(s, a), if a.Add? then Step(full, a) else full)
  {
    hide Above;
    if a.Add? {
      forall i | 0 <= i < |s| && s[i].user == a.user
        ensures s[i].at <= a.at
      {
        assert s[i] in full;
      }
      TouchFirst(s, a.user, a.at, CAP);
      TouchFirst(full, a.user, a.at, CAP);
      TouchedIsRanked(s, a.user, a.at);
      TouchedIsRanked(full, a.user, a.at);
    }
  }

  lemma {:induction false} RunKeepsTop(s: seq<Entry>, full: seq<Entry>, actions: seq<Action>)
    requires SameTop(s, full) && Forward(full, actions)
    ensures SameTop(Run(s, actions), History(full, actions))
    decreases |actions|
  {
    hide SameTop;
    if actions != [] {
      StepKeepsTop(s, full, actions[0]);
      RunKeepsTop(Step(s, actions[0]), if actions[0].Add? then Step(full, actions[0]) else full, actions[1..]);
    }
  }

  /** However adds and trims interleave, the 200 best of the set are the 200 most recently touched of the full history. */
  lemma CappedSetIsHistoryTop(actions: seq<Action>)
    requires Forward([], actions)
    ensures First(Run([], actions), CAP) == First(History([], actions), CAP)
  {
    RunKeepsTop([], [], actions);
  }

  // ---------------------------------------------------------------- the history is each user's last touch

  function LastTouch(actions: seq<Action>, user: int): Option<real>
    decreases |actions|
  {
    if actions == [] then None
    else
      var last := actions[|actions| - 1];
      if last.Add? && last.user == user then Some(last.at) else LastTouch(actions[..|actions| - 1], user)
  }

  lemma {:induction false} HistoryExtends(s: seq<Entry>, actions: seq<Action>)
    requires actions != []
    ensures var last := actions[|actions| - 1];
            var before := History(s, actions[..|actions| - 1]);
            History(s, actions) == if last.Add? then Step(before, last) else before
    decreases |actions|
  {
    if |actions| > 1 {
      assert actions[..|actions| - 1][1..] == actions[1..][..|actions| - 2];
      HistoryExtends(if actions[0].Add? then Step(s, actions[0]) else s, actions[1..]);
    }
  }

  lemma {:induction false} HistoryIsLastTouches(actions: seq<Action>)
    ensures Ranked(History([], actions))
    ensures forall e :: e in History([], actions) <==> LastTouch(actions, e.user) == Some(e.at)
    decreases |actions|
  {
    hide Above;
    if actions != [] {
      var before := actions[..|actions| - 1];
      var last := actions[|actions| - 1];
      HistoryIsLastTouches(before);
      HistoryExtends([], actions);
      if last.Add? {
        TouchedIsRanked(History([], before), last.user, last.at);
      }
    }
  }

  // ---------------------------------------------------------------- reading

  /** The users of a list that are not excluded, in order. */
  function Visible(s: seq<Entry>, excluded: set<int>): seq<int> {
    if s == [] then [] else (if s[0].user in excluded then [] else [s[0].user]) + Visible(s[1..], excluded)
  }

  function FirstIds(s: seq<int>, n: nat): seq<int> {
    if |s| <= n then s else s[..n]
  }

  function RecentIds(s: seq<Entry>, limit: nat, excluded: set<int>): seq<int> {
    FirstIds(Visible(First(s, limit + |excluded|), excluded), limit)
  }

  lemma FirstSplits(s: seq<Entry>, n: nat)
    requires |s| > n > 0
    ensures First(s, n) == [s[0]] + First(s[1..], n - 1) && First(s, n)[1..] == First(s[1..], n - 1)
  {
  }

  predicate Lacks(s: seq<Entry>, user: int) {
    forall i :: 0 <= i < |s| ==> s[i].user != user
  }

  lemma TailIsRanked(s: seq<Entry>, n: nat)
    requires Ranked(s) && s != []
    ensures Ranked(s[1..]) && Lacks(s[1..], s[0].user) && Lacks(First(s[1..], n), s[0].user)
  {
    hide Above;
  }

  lemma WithoutOne(excluded: set<int>, user: int)
    requires user in excluded
    ensures |excluded - {user}| == |excluded| - 1
  {
  }

  /** Looking at `limit + |excluded|` entries is enough: at most that many of them are excluded. */
  lemma {:induction false} EnoughIsRead(s: seq<Entry>, limit: nat, n: nat, excluded: set<int>)
    requires Ranked(s) && |excluded| <= n
    ensures FirstIds(Visible(First(s, limit + n), excluded), limit) == FirstIds(Visible(s, excluded), limit)
    decreases |s|
  {
    hide Ranked, First, Lacks, Visible, FirstIds;
    if |s| <= limit + n {
      ShortFirst(s, limit + n);
    } else if s[0].user in excluded {
      WithoutOne(excluded, s[0].user);
      VisibleSplits(s, limit + n, excluded);
      TailIsRanked(s, limit + n - 1);
      SameVisible(s[1..], s[0].user, excluded);
      SameVisible(First(s[1..], limit + n - 1), s[0].user, excluded);
      EnoughIsRead(s[1..], limit, n - 1, excluded - {s[0].user});
    } else if limit > 0 {
      TailIsRanked(s, limit + n - 1);
      VisibleSplits(s, limit + n, excluded);
      EnoughIsRead(s[1..], limit - 1, n, excluded);
      FirstIdsSplit(s[0].user, Visible(s[1..], excluded), limit);
      FirstIdsSplit(s[0].user, Visible(First(s[1..], limit + n - 1), excluded), limit);
    } else {
      NoIds(Visible(s, excluded));
      NoIds(Visible(First(s, limit + n), excluded));
    }
  }

  lemma VisibleSplits(s: seq<Entry>, n: nat, excluded: set<int>)
    requires |s| > n > 0
    ensures if s[0].user in excluded then
              Visible(s, excluded) == Visible(s[1..], excluded)
              && Visible(First(s, n), excluded) == Visible(First(s[1..], n - 1), excluded)
            else
              Visible(s, excluded) == [s[0].user] + Visible(s[1..], excluded)
              && Visible(First(s, n), excluded) == [s[0].user] + Visible(First(s[1..], n - 1), excluded)
  {
    FirstSplits(s, n);
    hide First;
  }

  lemma FirstIdsSplit(id: int, ids: seq<int>, n: nat)
    requires n > 0
    ensures FirstIds([id] + ids, n) == [id] + FirstIds(ids, n - 1)
  {
  }

  lemma NoIds(ids: seq<int>)
    ensures FirstIds(ids, 0) == []
  {
  }

  lemma ShortFirst(s: seq<Entry>, n: nat)
    requires |s| <= n
    ensures First(s, n) == s
  {
  }

  lemma {:induction false} SameVisible(s: seq<Entry>, user: int, excluded: set<int>)
    requires Lacks(s, user)
    ensures Visible(s, excluded) == Visible(s, excluded - {user})
  {
    if s != [] {
      SameVisible(s[1..], user, excluded);
    }
  }

  /** Within the cap, `get_recent_ids` answers as the full history would. */
  lemma RecentIdsAreTrue(actions: seq<Action>, limit: nat, excluded: set<int>)
    requires Forward([], actions) && limit + |excluded| <= CAP
    ensures RecentIds(Run([], actions), limit, excluded) == FirstIds(Visible(History([], actions), excluded), limit)
  {
    hide Run, History;
    assert SameTop([], []);
    RunKeepsTop([], [], actions);
    var s, full := Run([], actions), History([], actions);
    var n := limit + |excluded|;
    assert First(s, n) == First(First(s, CAP), n) && First(full, n) == First(First(full, CAP), n);
    EnoughIsRead(full, limit, |excluded|, excluded);
  }

  // ---------------------------------------------------------------- the repository

  class RedisActivityRepository {
    var entries: seq<Entry>

    constructor ()
      ensures entries == []
    {
      entries := [];
    }

    /** `touch`; `between` is what other touches do between its two commands. */
    method Touch(user: int, at: real, between: seq<Action>)
      requires Ranked(entries)
      modifies this
      ensures entries == Run(old(entries), [Add(user, at)] + between + [Trim]) && Ranked(entries) && |entries| <= CAP
    {
      hide Above;
      TouchedIsRanked(entries, user, at);
      RunRanked(Touched(entries, user, at), between);
      RunAppends(entries, [Add(user, at)] + between, [Trim]);
      RunAppends(entries, [Add(user, at)], between);
      RunOne(entries, Add(user, at));
      RunOne(Run(Touched(entries, user, at), between), Trim);
      entries := Touched(entries, user, at);
      entries := Run(entries, between);
      if |entries| > CAP {
        entries := entries[..CAP];
      }
    }

    method GetRecentIds(limit: nat, excludedIds: seq<int>) returns (ids: seq<int>)
      ensures ids == RecentIds(entries, limit, set x | x in excludedIds)
    {
      hide Visible;
      var excluded := set x | x in excludedIds;
      var members := First(entries, limit + |excluded|);
      ids := [];
      assert members[0..] == members;
      var i := 0;
      while i < |members|
        invariant 0 <= i <= |members|
        invariant ids + Visible(members[i..], excluded) == Visible(members, excluded)
      {
        VisibleFrom(members, i, excluded);
        if members[i].user !in excluded {
          ids := ids + [members[i].user];
        }
        i := i + 1;
      }
      VisibleNothing(members, excluded);
      ids := FirstIds(ids, limit);
    }
  }

  lemma VisibleFrom(s: seq<Entry>, i: nat, excluded: set<int>)
    requires i < |s|
    ensures Visible(s[i..], excluded)
            == (if s[i].user in excluded then [] else [s[i].user]) + Visible(s[i + 1..], excluded)
  {
    assert s[i..][1..] == s[i + 1..];
  }

  lemma VisibleNothing(s: seq<Entry>, excluded: set<int>)
    ensures Visible(s[|s|..], excluded) == []
  {
  }

  lemma {:induction false} RunRanked(s: seq<Entry>, actions: seq<Action>)
    requires Ranked(s)
    ensures Ranked(Run(s, actions))
    decreases |actions|
  {
    hide Above;
    if actions != [] {
      if actions[0].Add? {
        TouchedIsRanked(s, actions[0].user, actions[0].at);
      }
      RunRanked(Step(s, actions[0]), actions[1..]);
    }
  }

  lemma {:induction false} RunAppends(s: seq<Entry>, first: seq<Action>, second: seq<Action>)
    ensures Run(s, first + second) == Run(Run(s, first), second)
    decreases |first|
  {
    hide Step;
    if first == [] {
      assert first + second == second;
    } else {
      assert (first + second)[1..] == first[1..] + second;
      RunAppends(Step(s, first[0]), first[1..], second);
    }
  }

  lemma RunOne(s: seq<Entry>, a: Action)
    ensures Run(s, [a]) == Step(s, a)
  {
    assert [a][1..] == [];
  }
}
