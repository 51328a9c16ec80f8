/** What the conversation service promises, stated over its step functions. */
module ServiceProperties {
  import opened Basics
  import opened ObjectIds
  import opened Models
  import opened Service
  import Errors

  // ---------------------------------------------------------------------------
  // Private conversations

  /** A conversation with oneself is a conflict and stores nothing. */
  lemma SelfConversationRejected(convs: seq<Conversation>, a: ObjectId, svc: string, call: StoreCall)
    ensures var st := CreatePrivate(convs, a, a, svc, call);
            st.store == convs && st.result.Err? && st.result.error.Custom?
            && st.result.error.Text() == SelfConversation
            && Errors.Classify(st.result.error.err) == Some(Errors.Conflict)
  {
  }

  /** The private lookup does not depend on the order of the two ids. */
  lemma {:induction false} FindPrivateSymmetric(convs: seq<Conversation>, a: ObjectId, b: ObjectId)
    ensures FindPrivate(convs, a, b) == FindPrivate(convs, b, a)
  {
    if convs != [] {
      FindPrivateSymmetric(convs[1..], a, b);
    }
  }

  /** Appending a record only matters to the lookup when nothing earlier matched. */
  lemma {:induction false} FindPrivateAppend(convs: seq<Conversation>, c: Conversation, a: ObjectId, b: ObjectId)
    ensures FindPrivate(convs + [c], a, b) ==
              if FindPrivate(convs, a, b).Some? then FindPrivate(convs, a, b)
              else if IsPrivateMatch(c, a, b) then Some(c) else None
  {
    if convs == [] {
      assert [c][1..] == [];
    } else {
      assert (convs + [c])[1..] == convs[1..] + [c];
      FindPrivateAppend(convs[1..], c, a, b);
    }
  }

  /** An existing private conversation with both ids is returned, in either argument order, and nothing is stored. */
  lemma ExistingPrivateReturned(convs: seq<Conversation>, a: ObjectId, b: ObjectId, c: Conversation,
                                svc: string, call: StoreCall)
    requires a != b && call.find.Succeeds?
    requires FindPrivate(convs, a, b) == Some(c)
    ensures CreatePrivate(convs, a, b, svc, call) == Step(Ok(c), convs)
    ensures CreatePrivate(convs, b, a, svc, call) == Step(Ok(c), convs)
  {
    FindPrivateSymmetric(convs, a, b);
  }

  /**
   * With no match found (or a failed lookup), exactly one private conversation
   * with the fresh id, participants [sender, receiver] and creator sender is
   * stored and returned; a failed insert stores nothing.
   */
  lemma NewPrivateStored(convs: seq<Conversation>, a: ObjectId, b: ObjectId, svc: string, call: StoreCall)
    requires a != b
    requires call.find.FailsWith? || FindPrivate(convs, a, b).None?
    ensures var st := CreatePrivate(convs, a, b, svc, call);
            if call.write.Succeeds? then
              st.result.Ok? && st.store == convs + [st.result.value]
              && st.result.value.id == call.freshId && !st.result.value.isGroup
              && st.result.value.participants == [a, b] && st.result.value.createdBy == a
            else
              st == Step(Err(StoreFailure(call.write.cause)), convs)
  {
  }

  /**
   * Asking twice for the conversation between the same two users, in either
   * order, yields the same conversation the second time and stores nothing
   * more, provided the first lookup did not fail.
   */
  lemma PrivateIdempotent(convs: seq<Conversation>, a: ObjectId, b: ObjectId, svc: string,
                          first: StoreCall, second: StoreCall)
    requires first.find.Succeeds? && second.find.Succeeds?
    requires CreatePrivate(convs, a, b, svc, first).result.Ok?
    ensures var st := CreatePrivate(convs, a, b, svc, first);
            CreatePrivate(st.store, a, b, svc, second) == Step(st.result, st.store)
            && CreatePrivate(st.store, b, a, svc, second) == Step(st.result, st.store)
  {
    var st := CreatePrivate(convs, a, b, svc, first);
    var c := st.result.value;
    if FindPrivate(convs, a, b).None? {
      FindPrivateAppend(convs, c, a, b);
    }
    assert FindPrivate(st.store, a, b) == Some(c);
    ExistingPrivateReturned(st.store, a, b, c, svc, second);
  }

  /** A lookup that fails for a transport reason lets a second private conversation for the same pair be stored. */
  lemma FailedLookupDuplicates(convs: seq<Conversation>, a: ObjectId, b: ObjectId, c: Conversation,
                               svc: string, call: StoreCall)
    requires a != b && call.find.FailsWith? && call.write.Succeeds?
    requires FindPrivate(convs, a, b) == Some(c)
    ensures var st := CreatePrivate(convs, a, b, svc, call);
            |st.store| == |convs| + 1 && c in st.store[..|convs|]
            && IsPrivateMatch(st.store[|convs|], a, b) && st.result == Ok(st.store[|convs|])
  {
    var st := CreatePrivate(convs, a, b, svc, call);
    assert st.store[..|convs|] == convs;
  }

  /** The ids a conversation holds, ignoring order and repeats. */
  function Members(c: Conversation): set<ObjectId> {
    set x | x in c.participants
  }

  /** No two private conversations hold the same set of participants. */
  predicate UniquePrivatePairs(convs: seq<Conversation>) {
    forall i, j | 0 <= i < j < |convs| && !convs[i].isGroup && !convs[j].isGroup ::
      Members(convs[i]) != Members(convs[j])
  }

  /** Creating private conversations (with working lookups) never duplicates a pair. */
  lemma CreatePrivateKeepsPairsUnique(convs: seq<Conversation>, a: ObjectId, b: ObjectId, svc: string, call: StoreCall)
    requires UniquePrivatePairs(convs) && call.find.Succeeds?
    ensures UniquePrivatePairs(CreatePrivate(convs, a, b, svc, call).store)
  {
    var st := CreatePrivate(convs, a, b, svc, call);
    if st.store != convs {
      var c := st.result.value;
      assert st.store == convs + [c] && Members(c) == {a, b};
      forall i | 0 <= i < |convs| && !convs[i].isGroup
        ensures Members(convs[i]) != Members(c)
      {
        if Members(convs[i]) == Members(c) {
          assert a in Members(convs[i]) && b in Members(convs[i]);
          assert IsPrivateMatch(convs[i], a, b);
          assert false;
        }
      }
    }
  }

  /** Groups are never private, so creating one keeps private pairs unique. */
  lemma CreateGroupKeepsPairsUnique(convs: seq<Conversation>, input: GroupInput, svc: string, call: StoreCall)
    requires UniquePrivatePairs(convs)
    ensures UniquePrivatePairs(CreateGroup(convs, input, svc, call).store)
  {
  }

  // ---------------------------------------------------------------------------
  // Group conversations

  /** Fewer than two participants is a conflict and stores nothing. */
  lemma SmallGroupRejected(convs: seq<Conversation>, input: GroupInput, svc: string, call: StoreCall)
    requires |input.participants| < 2
    ensures var st := CreateGroup(convs, input, svc, call);
            st.store == convs && st.result.Err? && st.result.error.Custom? && st.result.error.Text() == GroupTooSmall
            && Errors.Classify(st.result.error.err) == Some(Errors.Conflict)
  {
  }

  /**
   * A new group keeps the title, the participant list exactly as given (order
   * and repeats) and the creator; an existing group the lookup hands back is
   * returned instead and nothing is stored.
   */
  lemma NewGroupStored(convs: seq<Conversation>, input: GroupInput, svc: string, call: StoreCall)
    requires |input.participants| >= 2
    ensures var st := CreateGroup(convs, input, svc, call);
            match GroupLookup(convs, call)
            case Some(g) => st == Step(Ok(g), convs) && g.isGroup
            case None =>
              if call.write.Succeeds? then
                st.result.Ok? && st.store == convs + [st.result.value]
                && st.result.value.id == call.freshId && st.result.value.isGroup
                && st.result.value.title == input.title
                && st.result.value.participants == input.participants
                && st.result.value.createdBy == input.creatorId
              else st == Step(Err(StoreFailure(call.write.cause)), convs)
  {
  }

  // ---------------------------------------------------------------------------
  // Adding participants

  /** Filtering distributes over concatenation, so the kept users stay in input order. */
  lemma {:induction false} NewUsersConcat(existing: seq<ObjectId>, u: seq<ObjectId>, v: seq<ObjectId>)
    ensures NewUsers(existing, u + v) == NewUsers(existing, u) + NewUsers(existing, v)
  {
    if v == [] {
      assert u + v == u;
    } else {
      var w := v[..|v| - 1];
      assert (u + v)[..|u + v| - 1] == u + w;
      assert (u + v)[|u + v| - 1] == v[|v| - 1];
      NewUsersConcat(existing, u, w);
    }
  }

  /** Each user occurs in the result as often as in the input when absent from `existing`, and never otherwise. */
  lemma {:induction false} NewUsersCount(existing: seq<ObjectId>, users: seq<ObjectId>, x: ObjectId)
    ensures multiset(NewUsers(existing, users))[x] == if x in existing then 0 else multiset(users)[x]
  {
    if users != [] {
      var init := users[..|users| - 1];
      assert users == init + [users[|users| - 1]];
      NewUsersCount(existing, init, x);
    }
  }

  /** Nothing is new exactly when every input user is already present (an empty input included). */
  lemma NewUsersEmpty(existing: seq<ObjectId>, users: seq<ObjectId>)
    ensures NewUsers(existing, users) == [] <==> forall x | x in users :: x in existing
  {
    if NewUsers(existing, users) == [] {
      forall x | x in users ensures x in existing {
        NewUsersCount(existing, users, x);
      }
    } else {
      var x := NewUsers(existing, users)[0];
      NewUsersCount(existing, users, x);
    }
  }

  /** Every failure of `AddUsers` leaves the store as it was. */
  lemma AddUsersFailureChangesNothing(convs: seq<Conversation>, input: AddParticipantsInput, svc: string, call: StoreCall)
    ensures var st := AddUsers(convs, input, svc, call);
            st.result.Err? ==> st.store == convs
  {
  }

  /** An unknown conversation is NotFound; a private one is a Conflict. */
  lemma AddUsersRejections(convs: seq<Conversation>, input: AddParticipantsInput, svc: string, call: StoreCall)
    requires call.find.Succeeds?
    ensures var st := AddUsers(convs, input, svc, call);
            (forall c | c in convs :: c.id != input.conversationId) ==>
              st.result.Err? && st.result.error.Custom? && st.result.error.Text() == ConversationNotFound
              && Errors.Classify(st.result.error.err) == Some(Errors.NotFound)
    ensures var st := AddUsers(convs, input, svc, call);
            var found := FindById(convs, input.conversationId);
            found.Some? && !convs[found.value].isGroup ==>
              st.result.Err? && st.result.error.Custom? && st.result.error.Text() == PrivateNotExtendable
              && Errors.Classify(st.result.error.err) == Some(Errors.Conflict)
  {
    var found := FindById(convs, input.conversationId);
    if found.Some? {
      assert convs[found.value] in convs;
    }
  }

  /** When every input user is already a participant of the group, it is a Conflict. */
  lemma AddUsersNothingNew(convs: seq<Conversation>, input: AddParticipantsInput, svc: string, call: StoreCall)
    requires call.find.Succeeds?
    requires FindById(convs, input.conversationId).Some?
    requires var g := convs[FindById(convs, input.conversationId).value];
             g.isGroup && forall x | x in input.userIds :: x in g.participants
    ensures var st := AddUsers(convs, input, svc, call);
            st.store == convs && st.result.Err? && st.result.error.Custom? && st.result.error.Text() == NothingToAdd
            && Errors.Classify(st.result.error.err) == Some(Errors.Conflict)
  {
    var g := convs[FindById(convs, input.conversationId).value];
    NewUsersEmpty(g.participants, input.userIds);
  }

  /**
   * On success exactly the first record with the given id changes, and only in
   * its participants: the old list followed by the new users in input order.
   */
  lemma AddUsersAppends(convs: seq<Conversation>, input: AddParticipantsInput, svc: string, call: StoreCall)
    ensures var st := AddUsers(convs, input, svc, call);
            st.result.Ok? ==>
              var i := FindById(convs, input.conversationId).value;
              var g := convs[i];
              g.isGroup && g.id == input.conversationId
              && (exists x | x in input.userIds :: x !in g.participants)
              && st.store == convs[i := g.(participants := g.participants + NewUsers(g.participants, input.userIds))]
  {
    var st := AddUsers(convs, input, svc, call);
    if st.result.Ok? {
      var g := convs[FindById(convs, input.conversationId).value];
      NewUsersEmpty(g.participants, input.userIds);
    }
  }

  /** Adding participants only ever changes a group, so private pairs stay unique. */
  lemma AddUsersKeepsPairsUnique(convs: seq<Conversation>, input: AddParticipantsInput, svc: string, call: StoreCall)
    requires UniquePrivatePairs(convs)
    ensures UniquePrivatePairs(AddUsers(convs, input, svc, call).store)
  {
  }

  // ---------------------------------------------------------------------------
  // Messages

  /** A saved message is the given one under the fresh id, appended to the collection. */
  lemma MessageSaved(messages: seq<Message>, msg: Message, call: StoreCall)
    ensures var st := SaveMessage(messages, msg, call);
            if call.write.Succeeds? then
              st.result.Ok? && st.store == messages + [st.result.value]
              && st.result.value == msg.(id := call.freshId)
            else st.store == messages && st.result == Err(StoreFailure(call.write.cause))
  {
  }
}
