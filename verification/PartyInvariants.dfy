/** The party scripts keep the invariant: a queued party's roster is frozen, every pointer names the party that lists its player. */
module PartyInvariants {
  import opened Common
  import opened Queue
  import opened QueueInvariants

  /** A party script touches only parties, party pointers of players, and invites. */
  ghost predicate OnlyParties(s: Store, d: Store) {
    d == s.(groups := s.groups.(parties := d.groups.parties, partyOf := d.groups.partyOf, invites := d.groups.invites))
  }

  lemma OnlyPartiesKeepsInv(s: Store, d: Store)
    requires Inv(s) && OnlyParties(s, d)
    requires PartiesOk(d.groups.parties, d.groups.partyOf) && RosterFrozen(d.queue.tickets, d.queue.partyPointers, d.groups.parties)
    ensures Inv(d)
  {
  }

  /** Rewriting a party that is not queued leaves every queued party frozen. */
  lemma UnqueuedFrozen(s: Store, id: string, party: Party)
    requires RosterFrozen(s.queue.tickets, s.queue.partyPointers, s.groups.parties) && RedisParty(id) !in s.queue.partyPointers
    ensures RosterFrozen(s.queue.tickets, s.queue.partyPointers, s.groups.parties[id := party])
    ensures RosterFrozen(s.queue.tickets, s.queue.partyPointers, s.groups.parties - {id})
  {
  }

  lemma CreatePartyKeepsInv(s: Store, player: string, newId: string)
    requires Inv(s) && newId !in s.groups.parties
    ensures Inv(CreateParty(s, player, newId).0)
  {
    if player !in s.groups.partyOf {
      var d := CreateParty(s, player, newId).0;
      var party := Party(player, [Member(player, true)], 1);
      assert party.Players() == [player];
      assert forall q :: q in s.queue.partyPointers ==> s.queue.partyPointers[q] in s.queue.tickets;
      assert RedisParty(newId) !in s.queue.partyPointers;
      UnqueuedFrozen(s, newId, party);
      assert PartySound(party);
      NewPartySound(s.groups.parties, s.groups.partyOf, newId, party, player);
      OnlyPartiesKeepsInv(s, d);
    } else {
      assert s.groups.partyOf[player] in s.groups.parties;
    }
  }

  lemma NewPartySound(parties: map<string, Party>, partyOf: map<string, string>, id: string, party: Party, player: string)
    requires PartiesOk(parties, partyOf) && id !in parties && player !in partyOf
    requires PartySound(party) && party.Players() == [player]
    ensures PartiesOk(parties[id := party], partyOf[player := id])
  {
  }

  /** Putting a rewritten party with the same players back. */
  lemma SamePlayersOk(parties: map<string, Party>, partyOf: map<string, string>, id: string, party: Party)
    requires PartiesOk(parties, partyOf) && id in parties && PartySound(party) && party.Players() == parties[id].Players()
    ensures PartiesOk(parties[id := party], partyOf)
  {
  }

  lemma InvitesFree(s: Store, invites: map<string, Invite>)
    requires Inv(s)
    ensures Inv(s.(groups := s.groups.(invites := invites)))
  {
    OnlyPartiesKeepsInv(s, s.(groups := s.groups.(invites := invites)));
  }

  lemma InviteOutcome(s: Store, player: string, invited: string, inviteId: string)
    requires PartiesOk(s.groups.parties, s.groups.partyOf)
    ensures var d := InviteToParty(s, player, invited, inviteId).0;
      d == s.(groups := s.groups.(invites := d.groups.invites))
  {
  }

  lemma InviteKeepsInv(s: Store, player: string, invited: string, inviteId: string)
    requires Inv(s)
    ensures Inv(InviteToParty(s, player, invited, inviteId).0)
  {
    InviteOutcome(s, player, invited, inviteId);
    InvitesFree(s, InviteToParty(s, player, invited, inviteId).0.groups.invites);
  }

  lemma JoinedPartySound(parties: map<string, Party>, partyOf: map<string, string>, id: string, party: Party, player: string)
    requires PartiesOk(parties, partyOf) && id in parties && player !in partyOf
    requires party.Players() == parties[id].Players() + [player] && |party.members| <= MAX_PARTY
    requires party.leader == parties[id].leader
    ensures PartiesOk(parties[id := party], partyOf[player := id])
  {
    var before := parties[id];
    assert PartySound(before);
    assert player !in before.Players();
    assert PartySound(party);
  }

  lemma AcceptedInvite(s: Store, player: string, inviteId: string)
    requires PartiesOk(s.groups.parties, s.groups.partyOf) && RosterFrozen(s.queue.tickets, s.queue.partyPointers, s.groups.parties)
    requires AcceptInvite(s, player, inviteId).1.PartyOk?
    ensures var d := AcceptInvite(s, player, inviteId).0;
      OnlyParties(s, d) && PartiesOk(d.groups.parties, d.groups.partyOf) && RosterFrozen(d.queue.tickets, d.queue.partyPointers, d.groups.parties)
  {
    var d := AcceptInvite(s, player, inviteId).0;
    var id := s.groups.invites[inviteId].partyId;
    assert d.groups.parties[id].Players() == s.groups.parties[id].Players() + [player];
    JoinedPartySound(s.groups.parties, s.groups.partyOf, id, d.groups.parties[id], player);
    UnqueuedFrozen(s, id, d.groups.parties[id]);
  }

  lemma AcceptInviteKeepsInv(s: Store, player: string, inviteId: string)
    requires Inv(s)
    ensures Inv(AcceptInvite(s, player, inviteId).0)
  {
    if AcceptInvite(s, player, inviteId).1.PartyOk? {
      AcceptedInvite(s, player, inviteId);
      OnlyPartiesKeepsInv(s, AcceptInvite(s, player, inviteId).0);
    }
  }

  lemma SetReadyKeepsInv(s: Store, player: string, ready: bool)
    requires Inv(s)
    ensures Inv(SetReady(s, player, ready).0)
  {
    var (d, reply) := SetReady(s, player, ready);
    if reply.PartyOk? {
      var id := s.groups.partyOf[player];
      assert PartySound(s.groups.parties[id]);
      assert d.groups.parties[id].Players() == s.groups.parties[id].Players();
      SamePlayersOk(s.groups.parties, s.groups.partyOf, id, d.groups.parties[id]);
      UnqueuedFrozen(s, id, d.groups.parties[id]);
      OnlyPartiesKeepsInv(s, d);
    }
  }

  lemma TransferKeepsInv(s: Store, player: string, next: string)
    requires Inv(s)
    ensures Inv(TransferLeader(s, player, next).0)
  {
    var (d, reply) := TransferLeader(s, player, next);
    if reply.PartyOk? {
      var id := s.groups.partyOf[player];
      assert PartySound(s.groups.parties[id]);
      assert d.groups.parties[id].Players() == s.groups.parties[id].Players();
      SamePlayersOk(s.groups.parties, s.groups.partyOf, id, d.groups.parties[id]);
      UnqueuedFrozen(s, id, d.groups.parties[id]);
      OnlyPartiesKeepsInv(s, d);
    }
  }

  // ---- LEAVE ----

  function Names(members: seq<Member>): (r: seq<string>)
    ensures |r| == |members|
  {
    seq(|members|, i requires 0 <= i < |members| => members[i].player)
  }

  lemma {:induction false} WithoutNames(members: seq<Member>, player: string)
    requires Distinct(Names(members))
    ensures Distinct(Names(Without(members, player)))
    ensures forall p :: p in Names(Without(members, player)) <==> p in Names(members) && p != player
  {
    if members != [] {
      var rest := members[1..];
      NamesFirst(members);
      WithoutNames(rest, player);
      if members[0].player != player {
        NamesCons(members[0], Without(rest, player));
      }
    }
  }

  lemma NamesFirst(members: seq<Member>)
    requires members != [] && Distinct(Names(members))
    ensures Distinct(Names(members[1..])) && members[0].player !in Names(members[1..])
    ensures forall p :: p in Names(members) <==> p == members[0].player || p in Names(members[1..])
  {
    assert Names(members) == [members[0].player] + Names(members[1..]);
    NamesTail(members[0].player, Names(members[1..]));
  }

  lemma NamesCons(first: Member, rest: seq<Member>)
    requires Distinct(Names(rest)) && first.player !in Names(rest)
    ensures Distinct(Names([first] + rest))
    ensures forall p :: p in Names([first] + rest) <==> p == first.player || p in Names(rest)
  {
    assert Names([first] + rest) == [first.player] + Names(rest);
  }

  lemma NamesTail(first: string, rest: seq<string>)
    requires Distinct([first] + rest)
    ensures Distinct(rest) && first !in rest
  {
    var all := [first] + rest;
    assert forall i :: 0 <= i < |rest| ==> rest[i] == all[i + 1];
    assert all[0] == first;
  }

  lemma LeftPartySound(parties: map<string, Party>, partyOf: map<string, string>, id: string, party: Party, player: string)
    requires PartiesOk(parties, partyOf) && id in parties && player in partyOf && partyOf[player] == id
    requires PartySound(party) && forall p :: p in party.Players() <==> p in parties[id].Players() && p != player
    ensures PartiesOk(parties[id := party], partyOf - {player})
  {
  }

  lemma GonePartySound(parties: map<string, Party>, partyOf: map<string, string>, id: string, player: string)
    requires PartiesOk(parties, partyOf) && id in parties && player in partyOf && partyOf[player] == id
    requires forall p :: p in parties[id].Players() ==> p == player
    ensures PartiesOk(parties - {id}, partyOf - {player})
  {
  }

  /** What remains of a party once the player is filtered out. */
  lemma Remaining(party: Party, player: string)
    requires PartySound(party)
    ensures var left := Without(party.members, player);
      && Distinct(Names(left)) && |left| <= MAX_PARTY
      && (forall p :: p in Names(left) <==> p in party.Players() && p != player)
      && (left == [] ==> Names(left) == [])
      && (left != [] ==> left[0].player in Names(left))
  {
    var left := Without(party.members, player);
    assert Names(party.members) == party.Players();
    WithoutNames(party.members, player);
    if left != [] { assert Names(left)[0] == left[0].player; }
  }

  lemma LeftParty(s: Store, player: string)
    requires PartiesOk(s.groups.parties, s.groups.partyOf) && RosterFrozen(s.queue.tickets, s.queue.partyPointers, s.groups.parties)
    requires player in s.groups.partyOf && RedisParty(s.groups.partyOf[player]) !in s.queue.partyPointers
    requires Without(s.groups.parties[s.groups.partyOf[player]].members, player) != []
    ensures var d := LeaveParty(s, player).0;
      OnlyParties(s, d) && PartiesOk(d.groups.parties, d.groups.partyOf) && RosterFrozen(d.queue.tickets, d.queue.partyPointers, d.groups.parties)
  {
    var id := s.groups.partyOf[player];
    var next := LeaveParty(s, player).0.groups.parties[id];
    Remaining(s.groups.parties[id], player);
    assert next.Players() == Names(Without(s.groups.parties[id].members, player));
    LeftPartySound(s.groups.parties, s.groups.partyOf, id, next, player);
    UnqueuedFrozen(s, id, next);
  }

  lemma EmptiedParty(s: Store, player: string)
    requires PartiesOk(s.groups.parties, s.groups.partyOf) && RosterFrozen(s.queue.tickets, s.queue.partyPointers, s.groups.parties)
    requires player in s.groups.partyOf && RedisParty(s.groups.partyOf[player]) !in s.queue.partyPointers
    requires Without(s.groups.parties[s.groups.partyOf[player]].members, player) == []
    ensures var d := LeaveParty(s, player).0;
      OnlyParties(s, d) && PartiesOk(d.groups.parties, d.groups.partyOf) && RosterFrozen(d.queue.tickets, d.queue.partyPointers, d.groups.parties)
  {
    var id := s.groups.partyOf[player];
    Remaining(s.groups.parties[id], player);
    GonePartySound(s.groups.parties, s.groups.partyOf, id, player);
    UnqueuedFrozen(s, id, s.groups.parties[id]);
  }

  lemma LeavePartyKeepsInv(s: Store, player: string)
    requires Inv(s)
    ensures Inv(LeaveParty(s, player).0)
  {
    if player in s.groups.partyOf && RedisParty(s.groups.partyOf[player]) !in s.queue.partyPointers {
      if Without(s.groups.parties[s.groups.partyOf[player]].members, player) == [] {
        EmptiedParty(s, player);
      } else {
        LeftParty(s, player);
      }
      OnlyPartiesKeepsInv(s, LeaveParty(s, player).0);
    }
  }
}
