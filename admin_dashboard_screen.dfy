/** The administrator's dashboard (components/AdminDashboardScreen.tsx): the day's
    figures, the managers that save, delete and add records of each collection, the
    client search, bike maintenance, payment acceptance, the reply box of the chat
    and the password form. Every manager computes the new collection and hands it to
    the shell's setter; those computations are the functions below. */
module AdminDashboardScreen {
  import opened Types
  import opened Collections
  import opened Text
  import AdminLoginScreen
  import ProfileScreen
  import App
  import Constants

  // Instructors, classes, advertisements, rewards and bank accounts

  const DefaultInstructorAvatar := "https://images.unsplash.com/photo-1544005313-94ddf0286df2?w=100&h=100&fit=crop&q=80"

  /** The record `handleAdd` appends, stamped with the clock reading `now`. */
  function NewInstructor(now: nat): Instructor
  {
    Instructor("instr-" + NatToString(now), "Nuevo Instructor", DefaultInstructorAvatar, "Nueva biografía.", 0.0, [])
  }

  /** `instructors[0]?.id || ''`: the first instructor's id, or empty without one. */
  function NewClass(instructors: seq<Instructor>, now: nat): (c: Class)
    ensures |instructors| > 0 ==> c.instructorId == instructors[0].id
    ensures |instructors| == 0 ==> c.instructorId == []
  {
    Class(now, "Nueva Clase", if |instructors| > 0 then instructors[0].id else [], "08:00 AM", 45, 20)
  }

  function NewAdvertisement(now: nat): Advertisement
  {
    Advertisement(now, Image, "Nuevo Anuncio", [], Some([]))
  }

  function NewReward(now: nat): Reward
  {
    Reward(now, "Nueva Recompensa", "Descripción", 100)
  }

  function NewBankAccount(now: nat): BankAccount
  {
    BankAccount(now, "Nuevo Banco", Ruc, [], Corriente, [])
  }

  function InstructorId(i: Instructor): string { i.id }
  function ClassId(c: Class): int { c.id }
  function AdId(a: Advertisement): int { a.id }
  function RewardId(r: Reward): int { r.id }
  function BankAccountId(b: BankAccount): int { b.id }
  function UserId(u: User): string { u.id }

  /** A new class is offered with the first instructor, so on a non-empty instructor
      list it never refers to a missing instructor. */
  lemma NewClassHasInstructor(instructors: seq<Instructor>, now: nat)
    requires |instructors| > 0
    ensures exists k :: 0 <= k < |instructors| && instructors[k].id == NewClass(instructors, now).instructorId
  {
    assert instructors[0].id == NewClass(instructors, now).instructorId;
  }

  /** What every manager promises of its save, add and delete handlers: saving keeps
      the number of records and every record's id in its place; adding a record whose
      id is not yet in use and then deleting that id restores the list. */
  lemma ManagerKeepsIds<T, K>(xs: seq<T>, key: T -> K, updated: T, added: T)
    ensures var r := ReplaceById(xs, key, updated);
      |r| == |xs| && forall i :: 0 <= i < |r| ==> key(r[i]) == key(xs[i])
    ensures (forall i :: 0 <= i < |xs| ==> key(xs[i]) != key(added)) ==>
      RemoveById(xs + [added], key, key(added)) == xs
  {
    ReplaceByIdSpec(xs, key, updated);
    if forall i :: 0 <= i < |xs| ==> key(xs[i]) != key(added) {
      RemoveUndoesAppend(xs, key, added);
    }
  }

  /** The instructors manager. The added instructor's id is "instr-" and the clock's
      digits, so adds at different times never share an id. */
  lemma InstructorsManagerSpec(instructors: seq<Instructor>, updated: Instructor, now: nat, later: nat)
    ensures var r := ReplaceById(instructors, InstructorId, updated);
      |r| == |instructors| && forall i :: 0 <= i < |r| ==> r[i].id == instructors[i].id
    ensures (forall i :: 0 <= i < |instructors| ==> instructors[i].id != NewInstructor(now).id) ==>
      RemoveById(instructors + [NewInstructor(now)], InstructorId, NewInstructor(now).id) == instructors
    ensures NewInstructor(now).id == NewInstructor(later).id <==> now == later
    ensures NewInstructor(now).reviews == [] && NewInstructor(now).rating == 0.0
  {
    ManagerKeepsIds(instructors, InstructorId, updated, NewInstructor(now));
    if NewInstructor(now).id == NewInstructor(later).id {
      assert NatToString(now) == NewInstructor(now).id[6..];
      assert NatToString(later) == NewInstructor(later).id[6..];
      NatToStringInjective(now, later);
    }
  }

  /** The classes manager; the added class is stamped with the clock as its id. */
  lemma ClassesManagerSpec(classes: seq<Class>, instructors: seq<Instructor>, updated: Class, now: nat)
    ensures var r := ReplaceById(classes, ClassId, updated);
      |r| == |classes| && forall i :: 0 <= i < |r| ==> r[i].id == classes[i].id
    ensures NewClass(instructors, now).id == now
    ensures (forall i :: 0 <= i < |classes| ==> classes[i].id != now) ==>
      RemoveById(classes + [NewClass(instructors, now)], ClassId, now) == classes
  {
    ManagerKeepsIds(classes, ClassId, updated, NewClass(instructors, now));
  }

  /** The advertisements manager; the added advert is an image with empty URLs. */
  lemma AdsManagerSpec(ads: seq<Advertisement>, updated: Advertisement, now: nat)
    ensures var r := ReplaceById(ads, AdId, updated);
      |r| == |ads| && forall i :: 0 <= i < |r| ==> r[i].id == ads[i].id
    ensures NewAdvertisement(now).id == now && NewAdvertisement(now).adType == Image
    ensures (forall i :: 0 <= i < |ads| ==> ads[i].id != now) ==>
      RemoveById(ads + [NewAdvertisement(now)], AdId, now) == ads
  {
    ManagerKeepsIds(ads, AdId, updated, NewAdvertisement(now));
  }

  /** The rewards manager. The added reward asks for 100 classes, so appending it to a
      list ordered by threshold whose thresholds are at most 100 keeps the list ordered
      (and `NextRewardIsNearest` keeps applying). */
  lemma RewardsManagerSpec(rewards: seq<Reward>, updated: Reward, now: nat)
    ensures var r := ReplaceById(rewards, RewardId, updated);
      |r| == |rewards| && forall i :: 0 <= i < |r| ==> r[i].id == rewards[i].id
    ensures (forall i :: 0 <= i < |rewards| ==> rewards[i].id != now) ==>
      RemoveById(rewards + [NewReward(now)], RewardId, now) == rewards
    ensures ProfileScreen.Ascending(rewards) && (forall i :: 0 <= i < |rewards| ==> rewards[i].requiredClasses <= 100) ==>
      ProfileScreen.Ascending(rewards + [NewReward(now)])
  {
    ManagerKeepsIds(rewards, RewardId, updated, NewReward(now));
  }

  /** The bank accounts manager. */
  lemma BankAccountsManagerSpec(accounts: seq<BankAccount>, updated: BankAccount, now: nat)
    ensures var r := ReplaceById(accounts, BankAccountId, updated);
      |r| == |accounts| && forall i :: 0 <= i < |r| ==> r[i].id == accounts[i].id
    ensures NewBankAccount(now).id == now
    ensures (forall i :: 0 <= i < |accounts| ==> accounts[i].id != now) ==>
      RemoveById(accounts + [NewBankAccount(now)], BankAccountId, now) == accounts
  {
    ManagerKeepsIds(accounts, BankAccountId, updated, NewBankAccount(now));
  }

  /** Deleting an instructor (after the confirmation dialog, here the `confirmed` flag)
      removes it but leaves the classes that name it: they then refer to nobody. */
  function DeleteInstructor(instructors: seq<Instructor>, id: string, confirmed: bool): Option<seq<Instructor>>
  {
    if confirmed then Some(RemoveById(instructors, InstructorId, id)) else None
  }

  lemma DeleteInstructorSpec(instructors: seq<Instructor>, id: string, confirmed: bool)
    ensures DeleteInstructor(instructors, id, confirmed).None? <==> !confirmed
    ensures confirmed ==>
      var r := DeleteInstructor(instructors, id, confirmed).value;
      IsSubsequence(r, instructors) &&
      (forall i :: 0 <= i < |r| ==> r[i].id != id) &&
      (forall i :: 0 <= i < |instructors| && instructors[i].id != id ==> instructors[i] in r)
  {
    RemoveByIdSpec(instructors, InstructorId, id);
  }

  // Clients

  /** A client matches the search when the lower-cased term occurs in the lower-cased
      name or email. */
  predicate Matches(u: User, term: string)
  {
    Contains(ToLower(u.name), ToLower(term)) || Contains(ToLower(u.email), ToLower(term))
  }

  /** `filteredUsers`. */
  function FilterUsers(users: seq<User>, term: string): seq<User>
  {
    Filter(users, (u: User) => Matches(u, term))
  }

  /** The term occurs, ignoring letter case, at some position of the name or the email. */
  ghost predicate OccursInNameOrEmail(u: User, term: string)
  {
    (exists k :: OccursAt(ToLower(u.name), ToLower(term), k)) ||
    (exists k :: OccursAt(ToLower(u.email), ToLower(term), k))
  }

  lemma MatchesIffOccurs(u: User, term: string)
    ensures Matches(u, term) <==> OccursInNameOrEmail(u, term)
  {
    ContainsAt(ToLower(u.name), ToLower(term));
    ContainsAt(ToLower(u.email), ToLower(term));
  }

  /** The search keeps, in order, exactly the clients whose name or email contains the
      term at some position, ignoring letter case; the empty term keeps everyone. */
  lemma FilterUsersSpec(users: seq<User>, term: string)
    ensures var r := FilterUsers(users, term);
      IsSubsequence(r, users) &&
      (forall i :: 0 <= i < |r| ==> OccursInNameOrEmail(r[i], term)) &&
      (forall i :: 0 <= i < |users| && OccursInNameOrEmail(users[i], term) ==> users[i] in r)
    ensures term == [] ==> FilterUsers(users, term) == users
    ensures FilterUsers(users, ToLower(term)) == FilterUsers(users, term)
  {
    var r := FilterUsers(users, term);
    FilterIsSubsequence(users, (u: User) => Matches(u, term));
    forall i | 0 <= i < |r|
      ensures OccursInNameOrEmail(r[i], term)
    {
      assert Matches(r[i], term);
      MatchesIffOccurs(r[i], term);
    }
    forall i | 0 <= i < |users| && OccursInNameOrEmail(users[i], term)
      ensures users[i] in r
    {
      MatchesIffOccurs(users[i], term);
    }
    if term == [] {
      forall i | 0 <= i < |users|
        ensures Matches(users[i], term)
      {
        ContainsEmpty(ToLower(users[i].name));
      }
      FilterKeepsAll(users, (u: User) => Matches(u, term));
    }
    ToLowerIdempotent(term);
    FilterSameOutcome(users, (u: User) => Matches(u, ToLower(term)), (u: User) => Matches(u, term));
  }

  lemma {:induction false} FilterSameOutcome<T>(xs: seq<T>, p: T -> bool, q: T -> bool)
    requires forall i :: 0 <= i < |xs| ==> p(xs[i]) == q(xs[i])
    ensures Filter(xs, p) == Filter(xs, q)
  {
    if xs != [] {
      FilterSameOutcome(xs[1..], p, q);
    }
  }

  /** `UsersManager.handleDelete`: only a confirmed deletion reaches `onUsersChange`. */
  function DeleteUser(users: seq<User>, userId: string, confirmed: bool): Option<seq<User>>
  {
    if confirmed then Some(RemoveById(users, UserId, userId)) else None
  }

  lemma DeleteUserSpec(users: seq<User>, userId: string, confirmed: bool)
    ensures DeleteUser(users, userId, confirmed).None? <==> !confirmed
    ensures confirmed ==>
      var r := DeleteUser(users, userId, confirmed).value;
      IsSubsequence(r, users) && (forall i :: 0 <= i < |r| ==> r[i].id != userId) &&
      (forall i :: 0 <= i < |users| && users[i].id != userId ==> users[i] in r)
  {
    RemoveByIdSpec(users, UserId, userId);
  }

  // Bikes

  /** `toggleBikeMaintenance`: the bike with that id goes to maintenance, or back to
      available when it was already under maintenance. */
  function ToggleMaintenance(bikes: seq<Bike>, bikeId: string): seq<Bike>
  {
    seq(|bikes|, i requires 0 <= i < |bikes| =>
      if bikes[i].id == bikeId then
        bikes[i].(status := if bikes[i].status == Maintenance then Available else Maintenance)
      else bikes[i])
  }

  /** Toggling touches only the bikes with that id and keeps every id; toggling twice
      restores an available or maintenance bike, while a taken or selected bike comes
      back available. */
  lemma ToggleMaintenanceSpec(bikes: seq<Bike>, bikeId: string)
    ensures var r := ToggleMaintenance(bikes, bikeId);
      |r| == |bikes| &&
      (forall i :: 0 <= i < |r| ==> r[i].id == bikes[i].id) &&
      (forall i :: 0 <= i < |r| && bikes[i].id != bikeId ==> r[i] == bikes[i]) &&
      (forall i :: 0 <= i < |r| && bikes[i].id == bikeId ==>
         (r[i].status == Maintenance <==> bikes[i].status != Maintenance))
    ensures var rr := ToggleMaintenance(ToggleMaintenance(bikes, bikeId), bikeId);
      (forall i :: 0 <= i < |bikes| && bikes[i].id == bikeId ==>
         rr[i].status == if bikes[i].status == Maintenance then Maintenance else Available) &&
      ((forall i :: 0 <= i < |bikes| && bikes[i].id == bikeId ==>
         bikes[i].status == Available || bikes[i].status == Maintenance) ==> rr == bikes)
  {
    var rr := ToggleMaintenance(ToggleMaintenance(bikes, bikeId), bikeId);
    if forall i :: 0 <= i < |bikes| && bikes[i].id == bikeId ==>
         bikes[i].status == Available || bikes[i].status == Maintenance {
      assert |rr| == |bikes|;
      forall i | 0 <= i < |bikes|
        ensures rr[i] == bikes[i]
      {
      }
    }
  }

  // Payments and the day's figures

  /** `handleAcceptPayment`: every record with that id becomes completed. */
  function AcceptPayment(payments: seq<PaymentRecord>, paymentId: string): (r: seq<PaymentRecord>)
    ensures |r| == |payments|
  {
    if payments == [] then []
    else [if payments[0].id == paymentId then payments[0].(status := Completed) else payments[0]]
         + AcceptPayment(payments[1..], paymentId)
  }

  lemma {:induction false} AcceptPaymentAt(payments: seq<PaymentRecord>, paymentId: string, i: nat)
    requires i < |payments|
    ensures AcceptPayment(payments, paymentId)[i] ==
      if payments[i].id == paymentId then payments[i].(status := Completed) else payments[i]
  {
    if i > 0 {
      AcceptPaymentAt(payments[1..], paymentId, i - 1);
    }
  }

  /** Accepting changes only the status of the records with that id, and accepting
      twice is accepting once. */
  lemma AcceptPaymentSpec(payments: seq<PaymentRecord>, paymentId: string)
    ensures var r := AcceptPayment(payments, paymentId);
      (forall i :: 0 <= i < |r| && payments[i].id == paymentId ==>
         r[i] == payments[i].(status := Completed)) &&
      (forall i :: 0 <= i < |r| && payments[i].id != paymentId ==> r[i] == payments[i])
    ensures AcceptPayment(AcceptPayment(payments, paymentId), paymentId) == AcceptPayment(payments, paymentId)
  {
    var r := AcceptPayment(payments, paymentId);
    forall i | 0 <= i < |r| {
      AcceptPaymentAt(payments, paymentId, i);
    }
    var rr := AcceptPayment(r, paymentId);
    forall i | 0 <= i < |r|
      ensures rr[i] == r[i]
    {
      AcceptPaymentAt(r, paymentId, i);
    }
  }

  predicate CompletedOn(p: PaymentRecord, today: string)
  {
    p.date == today && p.status == Completed
  }

  function Amount(p: PaymentRecord): real { p.amount }

  /** `todaysPayments`: the completed payments dated `today` (the `YYYY-MM-DD` part of
      the clock's ISO date, a parameter here). */
  function TodaysPayments(payments: seq<PaymentRecord>, today: string): seq<PaymentRecord>
  {
    Filter(payments, (p: PaymentRecord) => CompletedOn(p, today))
  }

  /** `todaysRevenue`. */
  function TodaysRevenue(payments: seq<PaymentRecord>, today: string): real
  {
    Sum(TodaysPayments(payments, today), Amount)
  }

  predicate IsPending(p: PaymentRecord) { p.status == Pending }

  /** The payments listed under pending reservations. */
  function PendingPayments(payments: seq<PaymentRecord>): seq<PaymentRecord>
  {
    Filter(payments, IsPending)
  }

  /** `pendingReservations`. */
  function PendingReservations(payments: seq<PaymentRecord>): nat
  {
    |PendingPayments(payments)|
  }

  predicate IsTaken(b: Bike) { b.status == Taken }

  /** `occupiedBikes` and `bikesInUse`. */
  function OccupiedBikes(bikes: seq<Bike>): seq<Bike>
  {
    Filter(bikes, IsTaken)
  }

  function BikesInUse(bikes: seq<Bike>): nat
  {
    |OccupiedBikes(bikes)|
  }

  /** `bikesInUse` counts the taken bikes: none after `resetToHome` releases them, and
      marking a booking's bikes taken never lowers the count. */
  lemma BikesInUseSpec(bikes: seq<Bike>, bikeIds: seq<string>)
    ensures BikesInUse(bikes) <= |bikes|
    ensures BikesInUse(App.ResetBikes(bikes)) == 0
    ensures BikesInUse(bikes) <= BikesInUse(App.MarkTaken(bikes, bikeIds)) <= |bikes|
  {
    App.ResetBikesSpec(bikes);
    var reset := App.ResetBikes(bikes);
    FilterKeepsAll(reset, (b: Bike) => !IsTaken(b));
    assert Filter(reset, (b: Bike) => !IsTaken(b)) == reset;
    NoneTaken(reset);
    App.MarkTakenSpec(bikes, bikeIds);
    TakenMonotone(bikes, App.MarkTaken(bikes, bikeIds));
  }

  /** A list with no taken bike has none in use. */
  lemma {:induction false} NoneTaken(bikes: seq<Bike>)
    requires forall i :: 0 <= i < |bikes| ==> !IsTaken(bikes[i])
    ensures BikesInUse(bikes) == 0
  {
    if bikes != [] {
      NoneTaken(bikes[1..]);
    }
  }

  /** Pointwise, whatever is taken in `a` is taken in `b`: `b` has at least as many in use. */
  lemma {:induction false} TakenMonotone(a: seq<Bike>, b: seq<Bike>)
    requires |a| == |b| && forall i :: 0 <= i < |a| && IsTaken(a[i]) ==> IsTaken(b[i])
    ensures BikesInUse(a) <= BikesInUse(b)
  {
    if a != [] {
      TakenMonotone(a[1..], b[1..]);
    }
  }

  /** The records accepting `paymentId` turns into revenue for `today`: those with that
      id, dated today, not yet completed. */
  predicate NewlyCompletedOn(p: PaymentRecord, paymentId: string, today: string)
  {
    p.id == paymentId && p.date == today && p.status != Completed
  }

  /** Accepting a payment raises today's revenue by exactly the amounts of the records
      it completes that are dated today. */
  lemma {:induction false} AcceptPaymentRevenue(payments: seq<PaymentRecord>, paymentId: string, today: string)
    ensures TodaysRevenue(AcceptPayment(payments, paymentId), today) ==
      TodaysRevenue(payments, today) +
      Sum(Filter(payments, (p: PaymentRecord) => NewlyCompletedOn(p, paymentId, today)), Amount)
  {
    if payments != [] {
      AcceptPaymentRevenue(payments[1..], paymentId, today);
      var r := AcceptPayment(payments, paymentId);
      assert r[1..] == AcceptPayment(payments[1..], paymentId);
      var gained := Filter(payments, (p: PaymentRecord) => NewlyCompletedOn(p, paymentId, today));
      var gainedTail := Filter(payments[1..], (p: PaymentRecord) => NewlyCompletedOn(p, paymentId, today));
      if NewlyCompletedOn(payments[0], paymentId, today) {
        assert gained == [payments[0]] + gainedTail;
        assert gained[1..] == gainedTail;
        assert TodaysPayments(r, today) == [r[0]] + TodaysPayments(r[1..], today);
        assert TodaysPayments(r, today)[1..] == TodaysPayments(r[1..], today);
      } else {
        assert gained == gainedTail;
        if CompletedOn(payments[0], today) {
          assert TodaysPayments(r, today) == [r[0]] + TodaysPayments(r[1..], today);
          assert TodaysPayments(r, today)[1..] == TodaysPayments(r[1..], today);
          assert TodaysPayments(payments, today)[1..] == TodaysPayments(payments[1..], today);
        }
      }
    }
  }

  /** Accepting a payment lowers the pending count by the number of pending records
      carrying that id: by one when payment ids are unique. */
  lemma {:induction false} AcceptPaymentPending(payments: seq<PaymentRecord>, paymentId: string)
    ensures PendingReservations(AcceptPayment(payments, paymentId)) ==
      PendingReservations(payments) - |Filter(payments, (p: PaymentRecord) => p.id == paymentId && IsPending(p))|
  {
    if payments != [] {
      AcceptPaymentPending(payments[1..], paymentId);
      var r := AcceptPayment(payments, paymentId);
      assert r[1..] == AcceptPayment(payments[1..], paymentId);
    }
  }

  /** With the seed data, on the seed payments' date: one completed card payment of 15
      makes the day's revenue, one transfer is pending, and accepting it adds its 26 to
      the revenue and empties the pending list. */
  lemma SeedDashboard()
    ensures TodaysRevenue(Constants.SamplePayments, "2024-07-28") == 15.0
    ensures PendingReservations(Constants.SamplePayments) == 1
    ensures TodaysRevenue(AcceptPayment(Constants.SamplePayments, "pay2"), "2024-07-28") == 41.0
    ensures PendingReservations(AcceptPayment(Constants.SamplePayments, "pay2")) == 0
  {
    var ps := Constants.SamplePayments;
    var today := "2024-07-28";
    assert ps[1..][1..] == [];
    assert TodaysPayments(ps[1..], today) == [];
    assert TodaysPayments(ps, today) == [ps[0]];
    assert [ps[0]][1..] == [];
    assert PendingPayments(ps[1..]) == [ps[1]];
    AcceptPaymentRevenue(ps, "pay2", today);
    var gained := Filter(ps, (p: PaymentRecord) => NewlyCompletedOn(p, "pay2", today));
    assert gained == [ps[1]] by {
      assert Filter(ps[1..], (p: PaymentRecord) => NewlyCompletedOn(p, "pay2", today)) == [ps[1]];
    }
    assert Sum(gained, Amount) == 26.0 by {
      assert gained[1..] == [];
    }
    AcceptPaymentPending(ps, "pay2");
    var pend := Filter(ps, (p: PaymentRecord) => p.id == "pay2" && IsPending(p));
    assert pend == [ps[1]] by {
      assert Filter(ps[1..], (p: PaymentRecord) => p.id == "pay2" && IsPending(p)) == [ps[1]];
    }
  }

  // Reply box of the chat tab

  /** `ChatManager.handleSend`: nothing for a blank reply; otherwise the administrator's
      message is appended (untrimmed) and the thread marked read. */
  function AdminReply(thread: ChatThread, reply: string, now: nat): Option<ChatThread>
  {
    if Trim(reply) == [] then None
    else
      var message := Message("m-admin-" + NatToString(now), FromAdmin, reply, now, None);
      Some(thread.(messages := thread.messages + [message], unread := false))
  }

  lemma AdminReplySpec(thread: ChatThread, reply: string, now: nat)
    ensures var r := AdminReply(thread, reply, now);
      (r.None? <==> IsBlank(reply)) &&
      (r.Some? ==>
        |r.value.messages| == |thread.messages| + 1 &&
        r.value.messages[..|thread.messages|] == thread.messages &&
        r.value.messages[|thread.messages|].sender == FromAdmin &&
        r.value.messages[|thread.messages|].text == reply &&
        r.value.messages[|thread.messages|].attachment.None? &&
        !r.value.unread && r.value.userId == thread.userId && r.value.userName == thread.userName)
  {
    TrimEmptyIffBlank(reply);
    var r := AdminReply(thread, reply, now);
    if r.Some? {
      assert r.value.messages[..|thread.messages|] == thread.messages;
    }
  }

  class ReplyBox {
    var reply: string

    constructor ()
      ensures reply == []
    {
      reply := [];
    }

    method SetReply(text: string)
      modifies this
      ensures reply == text
    {
      reply := text;
    }

    /** The send button: the reply is cleared once it has been sent. */
    method Send(thread: ChatThread, now: nat) returns (threadChange: Option<ChatThread>)
      modifies this
      ensures threadChange == AdminReply(thread, old(reply), now)
      ensures reply == if threadChange.Some? then [] else old(reply)
    {
      threadChange := AdminReply(thread, reply, now);
      if threadChange.Some? {
        reply := [];
      }
    }
  }

  // Password form

  const WrongCurrentPassword := "La contraseña actual es incorrecta."
  const NewPasswordsDiffer := "Las nuevas contraseñas no coinciden."
  const NewPasswordTooShort := "La nueva contraseña debe tener al menos 6 caracteres."
  const PasswordUpdated := "¡Contraseña actualizada correctamente!"
  const MinPasswordLength := 6

  /** The first failed check of `PasswordManager.handleSubmit`, in the order written. */
  function PasswordChangeError(current: string, newPassword: string, confirm: string): (e: Option<string>)
    ensures e.None? <==>
      current == AdminLoginScreen.AdminPassword && newPassword == confirm && |newPassword| >= MinPasswordLength
    ensures current != AdminLoginScreen.AdminPassword ==> e == Some(WrongCurrentPassword)
    ensures current == AdminLoginScreen.AdminPassword && newPassword != confirm ==> e == Some(NewPasswordsDiffer)
    ensures current == AdminLoginScreen.AdminPassword && newPassword == confirm && |newPassword| < MinPasswordLength ==>
      e == Some(NewPasswordTooShort)
  {
    if current != AdminLoginScreen.AdminPassword then Some(WrongCurrentPassword)
    else if newPassword != confirm then Some(NewPasswordsDiffer)
    else if |newPassword| < MinPasswordLength then Some(NewPasswordTooShort)
    else None
  }

  class PasswordForm {
    var currentPassword: string
    var newPassword: string
    var confirmPassword: string
    var error: string
    var success: string

    constructor ()
      ensures currentPassword == [] && newPassword == [] && confirmPassword == [] && error == [] && success == []
    {
      currentPassword, newPassword, confirmPassword, error, success := [], [], [], [], [];
    }

    method SetFields(current: string, newValue: string, confirm: string)
      modifies this
      ensures currentPassword == current && newPassword == newValue && confirmPassword == confirm
      ensures error == old(error) && success == old(success)
    {
      currentPassword, newPassword, confirmPassword := current, newValue, confirm;
    }

    /** On a failed check the first error is shown and the fields are kept; on success
        the confirmation is shown and the three fields are cleared. The password the
        login screen checks is a constant, so it does not change. */
    method Submit()
      modifies this
      ensures var e := PasswordChangeError(old(currentPassword), old(newPassword), old(confirmPassword));
        (e.Some? ==> error == e.value && success == [] &&
                     currentPassword == old(currentPassword) && newPassword == old(newPassword) &&
                     confirmPassword == old(confirmPassword)) &&
        (e.None? ==> error == [] && success == PasswordUpdated &&
                     currentPassword == [] && newPassword == [] && confirmPassword == [])
    {
      error := [];
      success := [];
      var e := PasswordChangeError(currentPassword, newPassword, confirmPassword);
      if e.Some? {
        error := e.value;
        return;
      }
      success := PasswordUpdated;
      currentPassword, newPassword, confirmPassword := [], [], [];
    }
  }

  // Configuration

  datatype PriceField = IndividualPrice | Group2Price | Group3Price

  /** The configuration tab's drafts: the prices being edited and the bike count, both
      taken from the props when the tab opens. */
  class ConfigForm {
    var tempPricing: Pricing
    var bikeCount: int

    constructor (pricing: Pricing, bikes: seq<Bike>)
      ensures tempPricing == pricing && bikeCount == |bikes|
    {
      tempPricing, bikeCount := pricing, |bikes|;
    }

    /** `handlePricingChange` for one of the three inputs. */
    method SetPrice(field: PriceField, value: real)
      modifies this
      ensures bikeCount == old(bikeCount)
      ensures tempPricing == match field
        case IndividualPrice => old(tempPricing).(individual := value)
        case Group2Price => old(tempPricing).(group2 := value)
        case Group3Price => old(tempPricing).(group3 := value)
    {
      match field
      case IndividualPrice => tempPricing := tempPricing.(individual := value);
      case Group2Price => tempPricing := tempPricing.(group2 := value);
      case Group3Price => tempPricing := tempPricing.(group3 := value);
    }

    method SetBikeCount(count: int)
      modifies this
      ensures bikeCount == count && tempPricing == old(tempPricing)
    {
      bikeCount := count;
    }

    /** "Guardar Precios": the drafts go to `onPricingChange`. */
    method SavePrices() returns (pricing: Pricing)
      ensures pricing == tempPricing
    {
      pricing := tempPricing;
    }

    /** "Actualizar": the draft count goes to `onBikeCountChange`, which lays out that
        many bikes afresh (none for a count of zero or less). */
    method UpdateBikeCount() returns (newBikes: seq<Bike>)
      ensures newBikes == Constants.GenerateBikeLayout(bikeCount)
      ensures |newBikes| == if bikeCount <= 0 then 0 else bikeCount
      ensures forall i :: 0 <= i < |newBikes| ==> newBikes[i].status == Available
    {
      Constants.GenerateBikeLayoutSpec(bikeCount);
      newBikes := Constants.GenerateBikeLayout(bikeCount);
    }
  }

  // Instructor card editor

  datatype InstructorField = NameInput | BioInput

  class InstructorEditor {
    var instructor: Instructor
    var isEditing: bool
    var editedInstructor: Instructor

    /** The draft differs from the instructor in name, bio and avatar at most. */
    ghost predicate Valid()
      reads this
    {
      editedInstructor.id == instructor.id && editedInstructor.rating == instructor.rating &&
      editedInstructor.reviews == instructor.reviews
    }

    constructor (inst: Instructor)
      ensures instructor == inst && editedInstructor == inst && !isEditing && Valid()
    {
      instructor, editedInstructor, isEditing := inst, inst, false;
    }

    /** The effect that copies a changed `instructor` prop into the draft. */
    method SyncInstructor(inst: Instructor)
      modifies this
      ensures instructor == inst && editedInstructor == inst && isEditing == old(isEditing) && Valid()
    {
      instructor := inst;
      editedInstructor := inst;
    }

    method StartEditing()
      modifies this
      ensures isEditing && instructor == old(instructor) && editedInstructor == old(editedInstructor)
    {
      isEditing := true;
    }

    method InputChange(field: InstructorField, value: string)
      requires Valid()
      modifies this
      ensures Valid() && instructor == old(instructor) && isEditing == old(isEditing)
      ensures editedInstructor == match field
        case NameInput => old(editedInstructor).(name := value)
        case BioInput => old(editedInstructor).(bio := value)
    {
      match field
      case NameInput => editedInstructor := editedInstructor.(name := value);
      case BioInput => editedInstructor := editedInstructor.(bio := value);
    }

    method AvatarLoaded(dataUrl: string)
      requires Valid()
      modifies this
      ensures Valid() && instructor == old(instructor) && isEditing == old(isEditing)
      ensures editedInstructor == old(editedInstructor).(avatarUrl := dataUrl)
    {
      editedInstructor := editedInstructor.(avatarUrl := dataUrl);
    }

    /** `handleSave`: the draft, which keeps the instructor's id, rating and reviews,
        goes to the manager, which swaps it in by id. */
    method Save() returns (updated: Instructor)
      requires Valid()
      modifies this
      ensures updated == old(editedInstructor) && !isEditing
      ensures updated.id == instructor.id && updated.rating == instructor.rating &&
              updated.reviews == instructor.reviews
      ensures instructor == old(instructor) && editedInstructor == old(editedInstructor) && Valid()
    {
      updated := editedInstructor;
      isEditing := false;
    }

    method Cancel()
      modifies this
      ensures editedInstructor == instructor && !isEditing && instructor == old(instructor) && Valid()
    {
      editedInstructor := instructor;
      isEditing := false;
    }
  }

  // Tabs and views

  datatype AdminTab = UsersTab | InstructorsTab | ClassesTab | PaymentsTab | AdsTab
                    | RewardsTab | ChatTab | ConfigTab | SecurityTab

  datatype AdminView = DashboardView | TodaysIncomeView | PendingReservationsView | OccupiedBikesView

  class Dashboard {
    var activeTab: AdminTab
    var view: AdminView

    constructor ()
      ensures activeTab == UsersTab && view == DashboardView
    {
      activeTab, view := UsersTab, DashboardView;
    }

    /** A tab click. Opening the chat tab on an unread thread marks it read, through the
        effect that watches the tab and the unread flag. */
    method SelectTab(tab: AdminTab, thread: ChatThread) returns (threadChange: Option<ChatThread>)
      modifies this
      ensures activeTab == tab && view == old(view)
      ensures threadChange.Some? <==> tab == ChatTab && thread.unread
      ensures threadChange.Some? ==> threadChange.value == thread.(unread := false)
    {
      activeTab := tab;
      if tab == ChatTab && thread.unread {
        threadChange := Some(thread.(unread := false));
      } else {
        threadChange := None;
      }
    }

    /** One of the three figure cards, or a back button (to `DashboardView`). */
    method OpenView(v: AdminView)
      modifies this
      ensures view == v && activeTab == old(activeTab)
    {
      view := v;
    }
  }
}
