/**
 * The voice roster of one guild's tracked call: who is in which voice
 * channel (a participant table keyed by user) and the queue of users who
 * joined but have not yet been heard (pending joins, oldest first). The
 * audio aggregator asks it for a speaker guess when a stream has no
 * announced user.
 */
module Roster {
  import opened Wrappers

  type UserId = nat
  type ChannelId = nat

  datatype ParticipantRecord = ParticipantRecord(channelId: ChannelId, joinedAt: int, lastSpokeAt: Option<int>)

  datatype PendingJoin = PendingJoin(userId: UserId, channelId: ChannelId, joinedAt: int)

  // ---------------------------------------------------------------------
  // The pending queue
  // ---------------------------------------------------------------------

  /** The pending joins `reset` seeds: one per initial user, in the given order. */
  function JoinsOf(users: seq<UserId>, channel: ChannelId, now: int): (r: seq<PendingJoin>)
    ensures |r| == |users|
    ensures forall i :: 0 <= i < |users| ==> r[i] == PendingJoin(users[i], channel, now)
  {
    seq(|users|, i requires 0 <= i < |users| => PendingJoin(users[i], channel, now))
  }

  /** How many pending entries name `user`. */
  function CountOf(pending: seq<PendingJoin>, user: UserId): nat {
    if pending == [] then 0
    else (if pending[0].userId == user then 1 else 0) + CountOf(pending[1..], user)
  }

  /** `pending.retain(|entry| entry.user_id != user_id)`. */
  function WithoutUser(pending: seq<PendingJoin>, user: UserId): (r: seq<PendingJoin>)
    ensures forall e :: e in r <==> e in pending && e.userId != user
    ensures |r| <= |pending|
  {
    if pending == [] then []
    else (if pending[0].userId == user then [] else [pending[0]]) + WithoutUser(pending[1..], user)
  }

  /** `pending.iter().position(|entry| entry.user_id == user_id)`. */
  function FirstIndexOf(pending: seq<PendingJoin>, user: UserId): (r: Option<nat>)
    ensures r.Some? ==> r.value < |pending| && pending[r.value].userId == user
    ensures r.Some? ==> forall j :: 0 <= j < r.value ==> pending[j].userId != user
    ensures r.None? ==> forall j :: 0 <= j < |pending| ==> pending[j].userId != user
  {
    if pending == [] then None
    else if pending[0].userId == user then Some(0)
    else match FirstIndexOf(pending[1..], user)
      case None => None
      case Some(i) => Some(i + 1)
  }

  /** `note_spoke`'s queue update: drop the first entry for `user`, if any. */
  function RemoveFirst(pending: seq<PendingJoin>, user: UserId): seq<PendingJoin> {
    match FirstIndexOf(pending, user)
    case None => pending
    case Some(i) => pending[..i] + pending[i + 1..]
  }

  /** `note_spoke` applied `k` times for the same user. */
  function RemoveFirstN(pending: seq<PendingJoin>, user: UserId, k: nat): seq<PendingJoin> {
    if k == 0 then pending else RemoveFirst(RemoveFirstN(pending, user, k - 1), user)
  }

  /** `note_spoke`'s participant update: stamp the user's record, if the user is a participant. */
  function Spoke(participants: map<UserId, ParticipantRecord>, user: UserId, now: int): map<UserId, ParticipantRecord> {
    if user in participants then participants[user := participants[user].(lastSpokeAt := Some(now))]
    else participants
  }

  /** Noting the same user speaking twice at one instant is noting it once. */
  lemma SpokeTwice(participants: map<UserId, ParticipantRecord>, user: UserId, now: int)
    ensures Spoke(Spoke(participants, user, now), user, now) == Spoke(participants, user, now)
  {
  }

  /** `take_pending_for_channel`: the sole pending join, when it is for `channel`. */
  function TakePending(pending: seq<PendingJoin>, channel: ChannelId): (Option<UserId>, seq<PendingJoin>) {
    if |pending| == 1 && pending[0].channelId == channel then (Some(pending[0].userId), [])
    else (None, pending)
  }

  // ---------------------------------------------------------------------
  // The participant table
  // ---------------------------------------------------------------------

  function InChannel(participants: map<UserId, ParticipantRecord>, channel: ChannelId): set<UserId> {
    set u | u in participants && participants[u].channelId == channel
  }

  lemma SingletonMember<T>(s: set<T>, x: T, y: T)
    requires |s| == 1 && x in s && y in s
    ensures x == y
  {
    assert |s - {x}| == 0;
    assert y in s - {x} || y == x;
  }

  /**
   * The single-participant heuristic: the one participant in `channel`,
   * when there is exactly one (the iterator's first match with no second).
   */
  function SoleParticipant(participants: map<UserId, ParticipantRecord>, channel: ChannelId): (r: Option<UserId>)
    ensures r.Some? <==> |InChannel(participants, channel)| == 1
    ensures r.Some? ==> InChannel(participants, channel) == {r.value}
  {
    var users := InChannel(participants, channel);
    if |users| == 1 then
      var u :| u in users;
      assert users == {u} by {
        forall v | v in users ensures v == u { SingletonMember(users, u, v); }
      }
      Some(u)
    else None
  }

  /** What `guess_speaker` returns and leaves in the pending queue. */
  function Guess(participants: map<UserId, ParticipantRecord>, pending: seq<PendingJoin>, channel: ChannelId)
    : (Option<UserId>, seq<PendingJoin>)
  {
    var (taken, rest) := TakePending(pending, channel);
    if taken.Some? then (taken, rest) else (SoleParticipant(participants, channel), pending)
  }

  // ---------------------------------------------------------------------
  // Properties
  // ---------------------------------------------------------------------

  lemma {:induction false} WithoutUserCount(pending: seq<PendingJoin>, user: UserId)
    ensures CountOf(WithoutUser(pending, user), user) == 0
  {
    if pending != [] {
      WithoutUserCount(pending[1..], user);
      CountAppend(if pending[0].userId == user then [] else [pending[0]], WithoutUser(pending[1..], user), user);
    }
  }

  lemma {:induction false} CountAppend(a: seq<PendingJoin>, b: seq<PendingJoin>, user: UserId)
    ensures CountOf(a + b, user) == CountOf(a, user) + CountOf(b, user)
  {
    if a == [] {
      assert a + b == b;
    } else {
      assert (a + b)[1..] == a[1..] + b;
      CountAppend(a[1..], b, user);
    }
  }

  /** `retain` keeps the other entries in their relative order: it distributes over concatenation. */
  lemma {:induction false} WithoutUserAppend(a: seq<PendingJoin>, b: seq<PendingJoin>, user: UserId)
    ensures WithoutUser(a + b, user) == WithoutUser(a, user) + WithoutUser(b, user)
  {
    if a == [] {
      assert a + b == b;
    } else {
      assert (a + b)[1..] == a[1..] + b;
      WithoutUserAppend(a[1..], b, user);
    }
  }

  /** Entries for other users are all kept, unchanged and in order. */
  lemma {:induction false} WithoutAbsentUser(pending: seq<PendingJoin>, user: UserId)
    requires forall i :: 0 <= i < |pending| ==> pending[i].userId != user
    ensures WithoutUser(pending, user) == pending
  {
    if pending != [] {
      WithoutAbsentUser(pending[1..], user);
    }
  }

  /** After `note_join` the user is pending exactly once, at the back. */
  lemma JoinedOnceAtBack(pending: seq<PendingJoin>, user: UserId, channel: ChannelId, now: int)
    ensures var p := WithoutUser(pending, user) + [PendingJoin(user, channel, now)];
      CountOf(p, user) == 1 && p[|p| - 1].userId == user
  {
    var w := WithoutUser(pending, user);
    WithoutUserCount(pending, user);
    CountAppend(w, [PendingJoin(user, channel, now)], user);
  }

  /** `note_spoke` drops exactly one entry of the user when there is one, and nothing else. */
  lemma RemoveFirstDropsOne(pending: seq<PendingJoin>, user: UserId)
    ensures CountOf(pending, user) > 0 ==> CountOf(RemoveFirst(pending, user), user) == CountOf(pending, user) - 1
    ensures CountOf(pending, user) > 0 ==> |RemoveFirst(pending, user)| == |pending| - 1
    ensures forall other :: other != user ==> CountOf(RemoveFirst(pending, user), other) == CountOf(pending, other)
  {
    match FirstIndexOf(pending, user)
    case None =>
      CountAbsent(pending, user);
    case Some(i) =>
      var a, x, b := pending[..i], pending[i], pending[i + 1..];
      assert pending == a + [x] + b;
      assert RemoveFirst(pending, user) == a + b;
      forall u ensures CountOf(pending, u) == CountOf(a + b, u) + (if x.userId == u then 1 else 0) {
        CountAppend(a + [x], b, u);
        CountAppend(a, [x], u);
        CountAppend(a, b, u);
      }
  }

  lemma {:induction false} CountAbsent(pending: seq<PendingJoin>, user: UserId)
    requires forall j :: 0 <= j < |pending| ==> pending[j].userId != user
    ensures CountOf(pending, user) == 0
  {
    if pending != [] {
      CountAbsent(pending[1..], user);
    }
  }

  /** The pending rule fires only for a queue of length one, whose entry is for the channel. */
  lemma TakePendingRule(pending: seq<PendingJoin>, channel: ChannelId)
    ensures TakePending(pending, channel).0.Some? <==> |pending| == 1 && pending[0].channelId == channel
    ensures TakePending(pending, channel).0.Some? ==>
      TakePending(pending, channel) == (Some(pending[0].userId), [])
    ensures TakePending(pending, channel).0.None? ==> TakePending(pending, channel).1 == pending
  {
  }

  /**
   * Two guesses in a row with nothing in between: the second never uses the
   * pending rule, leaves the queue alone and falls back on the
   * single-participant rule.
   */
  lemma SecondGuessSkipsPending(participants: map<UserId, ParticipantRecord>, pending: seq<PendingJoin>, channel: ChannelId)
    ensures var (_, afterFirst) := Guess(participants, pending, channel);
      TakePending(afterFirst, channel).0.None? &&
      Guess(participants, afterFirst, channel) == (SoleParticipant(participants, channel), afterFirst)
  {
  }

  /** Ambiguity is never resolved by a guess: no candidate, or two or more, yields None. */
  lemma NoGuessUnderAmbiguity(participants: map<UserId, ParticipantRecord>, pending: seq<PendingJoin>, channel: ChannelId)
    requires TakePending(pending, channel).0.None?
    requires |InChannel(participants, channel)| != 1
    ensures Guess(participants, pending, channel).0 == None
  {
  }

  // ---------------------------------------------------------------------
  // The roster object
  // ---------------------------------------------------------------------

  class VoiceRoster {
    const guildId: nat
    var participants: map<UserId, ParticipantRecord>
    var pending: seq<PendingJoin>

    constructor (guildId: nat)
      ensures this.guildId == guildId
      ensures participants == map[] && pending == []
    {
      this.guildId := guildId;
      participants := map[];
      pending := [];
    }

    /** Replaces all state by the given occupants of `channel`, each a participant and a pending join. */
    method Reset(channel: ChannelId, initialUsers: seq<UserId>, now: int)
      modifies this
      ensures participants == map u | u in initialUsers :: ParticipantRecord(channel, now, None)
      ensures pending == JoinsOf(initialUsers, channel, now)
    {
      participants := map[];
      pending := [];
      for i := 0 to |initialUsers|
        invariant participants == map u | u in initialUsers[..i] :: ParticipantRecord(channel, now, None)
        invariant pending == JoinsOf(initialUsers[..i], channel, now)
      {
        assert initialUsers[..i + 1] == initialUsers[..i] + [initialUsers[i]];
        participants := participants[initialUsers[i] := ParticipantRecord(channel, now, None)];
        pending := pending + [PendingJoin(initialUsers[i], channel, now)];
      }
      assert initialUsers[..|initialUsers|] == initialUsers;
    }

    method NoteJoin(channel: ChannelId, user: UserId, now: int)
      modifies this
      ensures participants == old(participants)[user := ParticipantRecord(channel, now, None)]
      ensures pending == WithoutUser(old(pending), user) + [PendingJoin(user, channel, now)]
    {
      participants := participants[user := ParticipantRecord(channel, now, None)];
      pending := WithoutUser(pending, user) + [PendingJoin(user, channel, now)];
    }

    method NoteLeave(user: UserId)
      modifies this
      ensures participants == old(participants) - {user}
      ensures pending == WithoutUser(old(pending), user)
    {
      participants := participants - {user};
      pending := WithoutUser(pending, user);
    }

    method NoteSpoke(user: UserId, now: int)
      modifies this
      ensures participants == Spoke(old(participants), user, now)
      ensures pending == RemoveFirst(old(pending), user)
    {
      if user in participants {
        participants := participants[user := participants[user].(lastSpokeAt := Some(now))];
      }
      pending := RemoveFirst(pending, user);
    }

    method TakePendingForChannel(channel: ChannelId) returns (r: Option<UserId>)
      modifies this
      ensures participants == old(participants)
      ensures (r, pending) == TakePending(old(pending), channel)
    {
      if |pending| == 1 && pending[0].channelId == channel {
        r := Some(pending[0].userId);
        pending := pending[1..];
        assert pending == [];
      } else {
        r := None;
      }
    }

    method GuessSpeaker(channel: ChannelId) returns (r: Option<UserId>)
      modifies this
      ensures participants == old(participants)
      ensures (r, pending) == Guess(old(participants), old(pending), channel)
    {
      r := TakePendingForChannel(channel);
      if r.Some? {
        return;
      }
      r := SoleParticipant(participants, channel);
    }

    method Clear()
      modifies this
      ensures participants == map[] && pending == []
    {
      participants := map[];
      pending := [];
    }

    function ParticipantCount(): (n: nat)
      reads this
      ensures n == |participants.Keys|
    {
      |participants|
    }
  }
}
