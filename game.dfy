/**
  One bingo round (the `Game` document): its lifecycle status, the roster of
  players with their stakes, the pot, the history of called numbers, and the
  settlement recorded when a player wins.

  Dates are integer milliseconds; every `new Date()` of the source is the
  parameter `now` of the operation that reads the clock.
*/
module Game {
  import opened Wrappers

  type UserId = string
  type CardId = string
  type Millis = int

  /** The values the `status` field may take. */
  datatype Status = Waiting | Starting | Playing | Ended | Cancelled

  /** One entry of the embedded `players` array. */
  datatype Player = Player(
    user: UserId,
    joinedAt: Millis,
    selectedCards: seq<CardId>,
    totalBet: int,
    hasClaimedBingo: bool,
    winningPattern: Option<string>,
    winningCard: Option<CardId>,
    winnings: int,
    wonAt: Option<Millis>)

  /** One entry of the call history. */
  datatype CalledNumber = CalledNumber(number: int, letter: char, calledAt: Millis)

  /** `duration` is computed from two dates; with `startedAt` unset JavaScript yields NaN. */
  datatype Duration = Seconds(secs: int) | NotANumber

  /** The errors the round's methods throw. */
  datatype GameError = GameAlreadyStarted | GameFull | PlayerAlreadyInGame | PlayerNotFound

  const MaxCalls: int := 75
  const BandWidth: int := 15
  const Letters: string := "BINGO"

  /** The letter band of a bingo number: five bands of fifteen numbers each. */
  function Letter(n: int): (c: char)
    requires 1 <= n <= MaxCalls
    ensures c == 'B' <==> 1 <= n <= 15
    ensures c == 'I' <==> 16 <= n <= 30
    ensures c == 'N' <==> 31 <= n <= 45
    ensures c == 'G' <==> 46 <= n <= 60
    ensures c == 'O' <==> 61 <= n <= 75
  {
    Letters[(n - 1) / BandWidth]
  }

  /**
    The player entry a successful `addPlayer` pushes: the given user, cards and
    stake, joined now, with the schema's defaults for the win fields.
  */
  function NewPlayer(user: UserId, selectedCards: seq<CardId>, totalBet: int, now: Millis): (p: Player)
    ensures p.user == user && p.selectedCards == selectedCards && p.totalBet == totalBet
    ensures p.joinedAt == now
    ensures !p.hasClaimedBingo && p.winningPattern.None? && p.winningCard.None?
    ensures p.winnings == 0 && p.wonAt.None?
  {
    Player(user, now, selectedCards, totalBet, false, None, None, 0, None)
  }

  /** The entry of a player whose bingo claim is accepted: the win is recorded, the stake and the user are kept. */
  function ClaimWin(p: Player, cardId: CardId, pattern: string, winnings: int, now: Millis): (w: Player)
    ensures w.user == p.user && w.totalBet == p.totalBet
    ensures w.joinedAt == p.joinedAt && w.selectedCards == p.selectedCards
    ensures w.hasClaimedBingo && w.winningPattern == Some(pattern) && w.winningCard == Some(cardId)
    ensures w.winnings == winnings && w.wonAt == Some(now)
  {
    p.(hasClaimedBingo := true, winningPattern := Some(pattern),
       winningCard := Some(cardId), winnings := winnings, wonAt := Some(now))
  }

  /** Whole seconds elapsed between two dates, rounded down as `Math.floor` does. */
  function ElapsedSeconds(startedAt: Option<Millis>, endedAt: Millis): (d: Duration)
    ensures startedAt.None? <==> d == NotANumber
    ensures startedAt.Some? ==>
      d.secs * 1000 <= endedAt - startedAt.value < (d.secs + 1) * 1000
  {
    match startedAt
    case None => NotANumber
    case Some(s) => Seconds((endedAt - s) / 1000)
  }

  // ----- the roster -----

  /** The sum of all stakes on the roster. */
  function SumBets(players: seq<Player>): int
  {
    if players == [] then 0 else players[0].totalBet + SumBets(players[1..])
  }

  lemma {:induction false} SumBetsConcat(a: seq<Player>, b: seq<Player>)
    ensures SumBets(a + b) == SumBets(a) + SumBets(b)
  {
    if a == [] {
      assert a + b == b;
    } else {
      assert (a + b)[1..] == a[1..] + b;
      SumBetsConcat(a[1..], b);
    }
  }

  /** Pushing a player adds exactly that player's stake to the sum. */
  lemma SumBetsAppend(players: seq<Player>, p: Player)
    ensures SumBets(players + [p]) == SumBets(players) + p.totalBet
  {
    SumBetsConcat(players, [p]);
    assert SumBets([p]) == p.totalBet + SumBets([]);
  }

  /** Splicing out entry `i` removes exactly that entry's stake from the sum. */
  lemma {:induction false} SumBetsRemove(players: seq<Player>, i: nat)
    requires i < |players|
    ensures SumBets(RemoveAt(players, i)) == SumBets(players) - players[i].totalBet
  {
    if i == 0 {
      assert RemoveAt(players, 0) == players[1..];
    } else {
      var rest := players[1..];
      assert RemoveAt(players, i) == [players[0]] + RemoveAt(rest, i - 1);
      SumBetsRemove(rest, i - 1);
      SumBetsCons(players[0], RemoveAt(rest, i - 1));
    }
  }

  lemma SumBetsCons(x: Player, b: seq<Player>)
    ensures SumBets([x] + b) == x.totalBet + SumBets(b)
  {
    assert ([x] + b)[1..] == b;
  }

  /** Replacing entry `i` by one with the same stake leaves the sum unchanged. */
  lemma {:induction false} SumBetsUpdate(players: seq<Player>, i: nat, p: Player)
    requires i < |players| && p.totalBet == players[i].totalBet
    ensures SumBets(players[i := p]) == SumBets(players)
  {
    if i == 0 {
      assert players[0 := p][1..] == players[1..];
    } else {
      var rest := players[1..];
      assert players[i := p] == [players[0]] + rest[i - 1 := p];
      SumBetsUpdate(rest, i - 1, p);
      SumBetsCons(players[0], rest[i - 1 := p]);
    }
  }

  /** `splice(i, 1)`: the roster without entry `i`, the rest in their order. */
  function RemoveAt(players: seq<Player>, i: nat): (r: seq<Player>)
    requires i < |players|
    ensures |r| == |players| - 1
    ensures forall k :: 0 <= k < i ==> r[k] == players[k]
    ensures forall k :: i <= k < |r| ==> r[k] == players[k + 1]
  {
    players[..i] + players[i + 1..]
  }

  /** No user holds two entries of the roster. */
  predicate DistinctUsers(players: seq<Player>)
  {
    forall i, j :: 0 <= i < j < |players| ==> players[i].user != players[j].user
  }

  /** The index of the first entry of `user`, as `findIndex` computes it (`None` for -1). */
  function FindUser(players: seq<Player>, user: UserId): (r: Option<nat>)
    ensures r.None? <==> forall k :: 0 <= k < |players| ==> players[k].user != user
    ensures r.Some? ==> r.value < |players| && players[r.value].user == user
    ensures r.Some? ==> forall k :: 0 <= k < r.value ==> players[k].user != user
  {
    if players == [] then None
    else if players[0].user == user then Some(0)
    else match FindUser(players[1..], user)
      case None => None
      case Some(j) => Some(j + 1)
  }

  /** Appending a user not yet on the roster keeps the users distinct. */
  lemma DistinctAfterAppend(players: seq<Player>, p: Player)
    requires DistinctUsers(players)
    requires FindUser(players, p.user).None?
    ensures DistinctUsers(players + [p])
  {
    var q := players + [p];
    forall i, j | 0 <= i < j < |q| ensures q[i].user != q[j].user {
      if j == |players| {
        assert q[i] == players[i];
      } else {
        assert q[i] == players[i] && q[j] == players[j];
      }
    }
  }

  /** Removing an entry keeps the users distinct. */
  lemma DistinctAfterRemove(players: seq<Player>, i: nat)
    requires DistinctUsers(players) && i < |players|
    ensures DistinctUsers(RemoveAt(players, i))
  {
    var q := RemoveAt(players, i);
    forall a, b | 0 <= a < b < |q| ensures q[a].user != q[b].user {
      var a' := if a < i then a else a + 1;
      var b' := if b < i then b else b + 1;
      assert q[a] == players[a'] && q[b] == players[b'] && a' < b';
    }
  }

  /** Replacing an entry by one of the same user keeps the users distinct. */
  lemma DistinctAfterUpdate(players: seq<Player>, i: nat, p: Player)
    requires DistinctUsers(players) && i < |players| && p.user == players[i].user
    ensures DistinctUsers(players[i := p])
  {
    var q := players[i := p];
    forall a, b | 0 <= a < b < |q| ensures q[a].user != q[b].user {
      assert q[a].user == players[a].user && q[b].user == players[b].user;
    }
  }

  // ----- the call history -----

  /** The numbers of the call history, as `calledNumbers.map(cn => cn.number)`. */
  function Numbers(calls: seq<CalledNumber>): (r: seq<int>)
    ensures |r| == |calls|
    ensures forall i :: 0 <= i < |calls| ==> r[i] == calls[i].number
  {
    if calls == [] then [] else Numbers(calls[..|calls| - 1]) + [calls[|calls| - 1].number]
  }

  predicate NoDuplicates(s: seq<int>)
  {
    forall i, j :: 0 <= i < j < |s| ==> s[i] != s[j]
  }

  /** Every call is a number in 1..75 under its own letter, and no number is called twice. */
  predicate WellFormedCalls(calls: seq<CalledNumber>)
  {
    && (forall i :: 0 <= i < |calls| ==>
          1 <= calls[i].number <= MaxCalls && calls[i].letter == Letter(calls[i].number))
    && NoDuplicates(Numbers(calls))
  }

  lemma {:induction false} DistinctCard(s: seq<int>)
    requires NoDuplicates(s)
    ensures |(set x | x in s)| == |s|
  {
    if s != [] {
      var t := s[..|s| - 1];
      var last := s[|s| - 1];
      assert s == t + [last];
      assert NoDuplicates(t) by {
        forall i, j | 0 <= i < j < |t| ensures t[i] != t[j] {
          assert t[i] == s[i] && t[j] == s[j];
        }
      }
      DistinctCard(t);
      assert last !in t by {
        forall k | 0 <= k < |t| ensures t[k] != last {
          assert t[k] == s[k];
        }
      }
      assert (set x | x in s) == (set x | x in t) + {last};
    }
  }

  /** The integers `lo..hi-1`. */
  function Interval(lo: int, hi: int): (r: set<int>)
    ensures forall x :: x in r <==> lo <= x < hi
    decreases hi - lo
  {
    if lo >= hi then {} else Interval(lo, hi - 1) + {hi - 1}
  }

  lemma {:induction false} IntervalCard(lo: int, hi: int)
    requires lo <= hi
    ensures |Interval(lo, hi)| == hi - lo
    decreases hi - lo
  {
    if lo < hi {
      IntervalCard(lo, hi - 1);
      assert hi - 1 !in Interval(lo, hi - 1);
    }
  }

  /**
    Pigeonhole: a duplicate-free list of numbers drawn from `lo..hi-1` has at
    most `hi - lo` entries, and while it is shorter some number in range is missing.
  */
  lemma {:induction false} Pigeonhole(s: seq<int>, lo: int, hi: int)
    requires lo <= hi
    requires NoDuplicates(s)
    requires forall i :: 0 <= i < |s| ==> lo <= s[i] < hi
    ensures |s| <= hi - lo
    ensures |s| < hi - lo ==> exists n :: lo <= n < hi && n !in s
  {
    var a := set x | x in s;
    var b := Interval(lo, hi);
    DistinctCard(s);
    IntervalCard(lo, hi);
    assert a <= b;
    assert a * b == a;
    assert |b - a| == |b| - |a|;
    if |s| < hi - lo {
      var n :| n in b - a;
      assert lo <= n < hi && n !in s;
    }
  }

  /** A well-formed call history never holds more than 75 calls. */
  lemma CallsAtMost75(calls: seq<CalledNumber>)
    requires WellFormedCalls(calls)
    ensures |calls| <= MaxCalls
  {
    Pigeonhole(Numbers(calls), 1, MaxCalls + 1);
  }

  /** While fewer than 75 numbers are called, some number in 1..75 is still uncalled. */
  lemma UncalledExists(calls: seq<CalledNumber>)
    requires WellFormedCalls(calls) && |calls| < MaxCalls
    ensures exists n :: 1 <= n <= MaxCalls && n !in Numbers(calls)
  {
    Pigeonhole(Numbers(calls), 1, MaxCalls + 1);
  }

  /** Appending a fresh number in range under its letter keeps the history well formed. */
  lemma WellFormedAfterCall(calls: seq<CalledNumber>, c: CalledNumber)
    requires WellFormedCalls(calls)
    requires 1 <= c.number <= MaxCalls && c.letter == Letter(c.number)
    requires c.number !in Numbers(calls)
    ensures WellFormedCalls(calls + [c])
  {
    var q := calls + [c];
    assert q[..|q| - 1] == calls;
    assert Numbers(q) == Numbers(calls) + [c.number];
    var ns := Numbers(q);
    forall i, j | 0 <= i < j < |ns| ensures ns[i] != ns[j] {
      if j == |calls| {
        assert ns[i] == Numbers(calls)[i];
      } else {
        assert ns[i] == Numbers(calls)[i] && ns[j] == Numbers(calls)[j];
      }
    }
  }

  /** The round document. */
  class Round {
    const gameId: string
    const betAmount: int
    const maxPlayers: int
    const minPlayers: int
    const scheduledStart: Millis
    var status: Status
    var players: seq<Player>
    var calledNumbers: seq<CalledNumber>
    var currentNumber: Option<CalledNumber>
    var potSize: int
    var winner: Option<UserId>
    var winningPattern: Option<string>
    var startedAt: Option<Millis>
    var endedAt: Option<Millis>
    var endReason: Option<string>
    var duration: Option<Duration>

    /**
      The round's invariant: the pot is the sum of the stakes, each user holds
      one entry, no seat beyond `maxPlayers` is taken, the history is well formed,
      and the current number is the last call.
    */
    ghost predicate Valid()
      reads this`potSize, this`players, this`calledNumbers, this`currentNumber
    {
      && potSize == SumBets(players)
      && (|players| <= maxPlayers || players == [])
      && DistinctUsers(players)
      && WellFormedCalls(calledNumbers)
      && currentNumber == (if calledNumbers == [] then None else Some(calledNumbers[|calledNumbers| - 1]))
    }

    /** A new round, with the schema's defaults: waiting, no players, empty pot, no calls. */
    constructor (gameId: string, betAmount: int, maxPlayers: int, minPlayers: int, scheduledStart: Millis)
      ensures Valid()
      ensures this.gameId == gameId && this.betAmount == betAmount
      ensures this.maxPlayers == maxPlayers && this.minPlayers == minPlayers
      ensures this.scheduledStart == scheduledStart
      ensures status == Waiting && players == [] && potSize == 0
      ensures calledNumbers == [] && currentNumber == None
      ensures winner == None && winningPattern == None
      ensures startedAt == None && endedAt == None && endReason == None && duration == None
    {
      this.gameId := gameId;
      this.betAmount := betAmount;
      this.maxPlayers := maxPlayers;
      this.minPlayers := minPlayers;
      this.scheduledStart := scheduledStart;
      status := Waiting;
      players := [];
      calledNumbers := [];
      currentNumber := None;
      potSize := 0;
      winner := None;
      winningPattern := None;
      startedAt := None;
      endedAt := None;
      endReason := None;
      duration := None;
    }

    /** The `playerCount` virtual: the roster length, which the seat check keeps within `maxPlayers`. */
    function PlayerCount(): (n: nat)
      reads this
      requires Valid()
      ensures n == |players|
      ensures n <= maxPlayers || n == 0
    {
      |players|
    }

    /** The `calledNumbersCount` virtual; never above 75 in a valid round. */
    function CalledNumbersCount(): (n: nat)
      reads this
      requires Valid()
      ensures n == |calledNumbers| && n <= MaxCalls
    {
      CallsAtMost75(calledNumbers);
      |calledNumbers|
    }

    /** The `isFull` virtual: no seat is left; a full round holds exactly `maxPlayers` players (or none, when it has no seats). */
    function IsFull(): (full: bool)
      reads this
      requires Valid()
      ensures !full <==> |players| < maxPlayers
      ensures full ==> |players| == maxPlayers || (players == [] && maxPlayers <= 0)
    {
      |players| >= maxPlayers
    }

    /** The `timeUntilStart` virtual: milliseconds until the scheduled start, never negative. */
    function TimeUntilStart(now: Millis): (t: int)
      reads this
      ensures t >= 0
      ensures status != Waiting ==> t == 0
      ensures status == Waiting ==> now + t >= scheduledStart
      ensures t > 0 <==> status == Waiting && now < scheduledStart
      ensures t > 0 ==> now + t == scheduledStart
    {
      if status != Waiting then 0
      else if scheduledStart - now > 0 then scheduledStart - now else 0
    }

    /** `getPlayer`: the first roster entry of `user`, if any. */
    function GetPlayer(user: UserId): (r: Option<Player>)
      reads this
      ensures r.None? <==> forall k :: 0 <= k < |players| ==> players[k].user != user
      ensures r.Some? ==> r.value in players && r.value.user == user
    {
      match FindUser(players, user)
      case None => None
      case Some(i) => Some(players[i])
    }

    /**
      `addPlayer`: refused unless the round is waiting, has a free seat and
      does not hold the user yet; otherwise pushes the player, adds the stake to
      the pot and returns the new roster length.
    */
    method AddPlayer(user: UserId, selectedCards: seq<CardId>, totalBet: int, now: Millis)
      returns (r: Result<nat, GameError>)
      requires Valid()
      modifies this`players, this`potSize
      ensures Valid()
      ensures old(status) != Waiting ==> r == Failure(GameAlreadyStarted)
      ensures old(status) == Waiting && old(|players|) >= maxPlayers ==> r == Failure(GameFull)
      ensures old(status) == Waiting && old(|players|) < maxPlayers && old(FindUser(players, user)).Some?
              ==> r == Failure(PlayerAlreadyInGame)
      ensures r.Failure? ==> players == old(players) && potSize == old(potSize)
      ensures r.Success? <==>
        old(status) == Waiting && old(|players|) < maxPlayers && old(FindUser(players, user)).None?
      ensures r.Success? ==>
        && players == old(players) + [NewPlayer(user, selectedCards, totalBet, now)]
        && potSize == old(potSize) + totalBet
        && r.value == |players|
    {
      if status != Waiting {
        return Failure(GameAlreadyStarted);
      }
      if IsFull() {
        return Failure(GameFull);
      }
      if FindUser(players, user).Some? {
        return Failure(PlayerAlreadyInGame);
      }
      var p := NewPlayer(user, selectedCards, totalBet, now);
      SumBetsAppend(players, p);
      DistinctAfterAppend(players, p);
      players := players + [p];
      potSize := potSize + totalBet;
      r := Success(|players|);
    }

    /**
      `removePlayer`: refused when the user is absent; otherwise splices out
      that user's entry, subtracts its stake from the pot and returns the new length.
      The status is not consulted.
    */
    method RemovePlayer(user: UserId) returns (r: Result<nat, GameError>)
      requires Valid()
      modifies this`players, this`potSize
      ensures Valid()
      ensures r.Failure? <==> old(FindUser(players, user)).None?
      ensures r.Failure? ==> r.error == PlayerNotFound && players == old(players) && potSize == old(potSize)
      ensures r.Success? ==>
        var i := old(FindUser(players, user)).value;
        && players == RemoveAt(old(players), i)
        && potSize == old(potSize) - old(players[i].totalBet)
        && r.value == |players|
      ensures r.Success? ==> forall k :: 0 <= k < |players| ==> players[k].user != user
    {
      var found := FindUser(players, user);
      if found.None? {
        return Failure(PlayerNotFound);
      }
      var i := found.value;
      SumBetsRemove(players, i);
      DistinctAfterRemove(players, i);
      potSize := potSize - players[i].totalBet;
      players := RemoveAt(players, i);
      r := Success(|players|);
      forall k | 0 <= k < |players| ensures players[k].user != user {
        var k' := if k < i then k else k + 1;
        assert players[k] == old(players)[k'] && k' != i;
      }
    }

    /**
      `callNumber`: once 75 numbers are called returns null and changes nothing;
      otherwise draws a number not called yet (the random draw is a free choice
      among the uncalled numbers), appends it with its letter and makes it current.
      The status is not consulted.
    */
    method CallNumber(now: Millis) returns (r: Option<CalledNumber>)
      requires Valid()
      modifies this`calledNumbers, this`currentNumber
      ensures Valid()
      ensures old(|calledNumbers|) >= MaxCalls <==> r.None?
      ensures r.None? ==> calledNumbers == old(calledNumbers) && currentNumber == old(currentNumber)
      ensures r.Some? ==>
        && 1 <= r.value.number <= MaxCalls
        && r.value.number !in old(Numbers(calledNumbers))
        && r.value.letter == Letter(r.value.number)
        && r.value.calledAt == now
        && calledNumbers == old(calledNumbers) + [r.value]
        && currentNumber == r
      ensures |calledNumbers| <= MaxCalls
    {
      CallsAtMost75(calledNumbers);
      if |calledNumbers| >= MaxCalls {
        return None;
      }
      UncalledExists(calledNumbers);
      var called := Numbers(calledNumbers);
      var newNumber :| 1 <= newNumber <= MaxCalls && newNumber !in called;
      var c := CalledNumber(newNumber, Letter(newNumber), now);
      WellFormedAfterCall(calledNumbers, c);
      calledNumbers := calledNumbers + [c];
      currentNumber := Some(c);
      r := Some(c);
    }

    /**
      `markPlayerWin`: refused when the user is absent; otherwise records the
      win on that player's entry and settles the round: winner, pattern, status
      `ended`, end date, duration in whole seconds and the end reason.
      Every other entry, the pot and the call history stay as they were.
    */
    method MarkPlayerWin(user: UserId, cardId: CardId, pattern: string, winnings: int, now: Millis)
      returns (r: Result<Player, GameError>)
      requires Valid()
      modifies this`players, this`winner, this`winningPattern, this`status,
               this`endedAt, this`duration, this`endReason
      ensures Valid()
      ensures r.Failure? <==> old(FindUser(players, user)).None?
      ensures r.Failure? ==>
        && r.error == PlayerNotFound
        && players == old(players) && winner == old(winner) && winningPattern == old(winningPattern)
        && status == old(status) && endedAt == old(endedAt) && duration == old(duration)
        && endReason == old(endReason)
      ensures r.Success? ==>
        var i := old(FindUser(players, user)).value;
        && r.value == ClaimWin(old(players[i]), cardId, pattern, winnings, now)
        && players == old(players)[i := r.value]
        && winner == Some(user) && winningPattern == Some(pattern)
        && status == Ended && endedAt == Some(now)
        && duration == Some(ElapsedSeconds(startedAt, now))
        && endReason == Some("Bingo by player " + user)
      ensures potSize == old(potSize) && |players| == old(|players|)
    {
      var found := FindUser(players, user);
      if found.None? {
        return Failure(PlayerNotFound);
      }
      var i := found.value;
      var p := ClaimWin(players[i], cardId, pattern, winnings, now);
      SumBetsUpdate(players, i, p);
      DistinctAfterUpdate(players, i, p);
      players := players[i := p];
      EndWithWinner(user, pattern, now);
      r := Success(p);
    }

    /** The settlement half of `markPlayerWin`: the round ends with `user` as its winner. */
    method EndWithWinner(user: UserId, pattern: string, now: Millis)
      modifies this`winner, this`winningPattern, this`status, this`endedAt, this`duration, this`endReason
      ensures winner == Some(user) && winningPattern == Some(pattern)
      ensures status == Ended && endedAt == Some(now)
      ensures duration == Some(ElapsedSeconds(startedAt, now))
      ensures endReason == Some("Bingo by player " + user)
    {
      winner := Some(user);
      winningPattern := Some(pattern);
      status := Ended;
      endedAt := Some(now);
      duration := Some(ElapsedSeconds(startedAt, now));
      endReason := Some("Bingo by player " + user);
    }

    /**
      The `pre('save')` hook: when the status was modified, stamps `startedAt`
      on entering `playing` and `endedAt`/`duration` on entering `ended`, each
      only if not already set.
    */
    method PreSave(statusModified: bool, now: Millis)
      requires Valid()
      modifies this`startedAt, this`endedAt, this`duration
      ensures Valid()
      ensures startedAt ==
        if statusModified && status == Playing && old(startedAt).None? then Some(now) else old(startedAt)
      ensures statusModified && status == Ended && old(endedAt).None? ==>
        endedAt == Some(now) && duration == Some(ElapsedSeconds(startedAt, now))
      ensures !(statusModified && status == Ended && old(endedAt).None?) ==>
        endedAt == old(endedAt) && duration == old(duration)
    {
      if statusModified && status == Playing && startedAt.None? {
        startedAt := Some(now);
      }
      if statusModified && status == Ended && endedAt.None? {
        endedAt := Some(now);
        duration := Some(ElapsedSeconds(startedAt, now));
      }
    }
  }
}
