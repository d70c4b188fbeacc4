/** The application shell (App.tsx): which screen is shown, the data every screen
    shares, and the handlers the screens call back into. The shell is a `Controller`
    object whose fields are the component's state hooks; each handler is a method,
    and the timers (splash, final screen, admin inactivity) are events that can only
    fire while the screen that started them is shown. */
module App {
  import opened Types
  import opened Collections
  import Constants

  datatype View = Splash | Login | CreateAccount | ForgotPassword | Home | Booking | Payment
                | Profile | Chat | InstructorProfile | AdminLogin | AdminDashboard | Final | QRScanner

  datatype NavTab = HomeTab | ChatTab | ProfileTab

  /** `setView(tab)` in `handleNavigate`: each tab names the view of the same name. */
  function TabView(t: NavTab): View
  {
    match t
    case HomeTab => Home
    case ChatTab => Chat
    case ProfileTab => Profile
  }

  /** `showNav`: the bottom navigation is drawn on the three tab views only. */
  predicate ShowNav(v: View)
  {
    v == Home || v == Chat || v == Profile
  }

  lemma ShowNavIffTab(v: View)
    ensures ShowNav(v) <==> exists t: NavTab :: TabView(t) == v
  {
    if v == Home { assert TabView(HomeTab) == v; }
    if v == Chat { assert TabView(ChatTab) == v; }
    if v == Profile { assert TabView(ProfileTab) == v; }
  }

  datatype NoticeKind = SuccessNotice | InfoNotice

  /** `loginMessage`: the banner the login screen shows. */
  datatype LoginNotice = LoginNotice(kind: NoticeKind, text: string)

  datatype FinalMessage = FinalMessage(title: string, message: string)

  const AccountCreatedText := "¡Cuenta creada! Ya puedes iniciar sesión."
  const ResetRequestedText := "Si tu correo existe, recibirás un enlace de recuperación."
  const SuccessTitle := "¡Reserva Exitosa!"
  const DefaultConfirmation := "Tu clase ha sido confirmada. ¡Prepárate para pedalear!"
  const InitialBikeCount := 20

  /** `message || default`: a missing or empty message gives way to the default. */
  function ConfirmationText(message: Option<string>): (text: string)
    ensures |text| > 0
    ensures message.Some? && |message.value| > 0 ==> text == message.value
    ensures message.None? || message.value == [] ==> text == DefaultConfirmation
  {
    if message.Some? && message.value != [] then message.value else DefaultConfirmation
  }

  // Bikes

  /** `resetToHome`'s rewrite: every bike not under maintenance becomes available. */
  function ResetBikes(bikes: seq<Bike>): seq<Bike>
  {
    seq(|bikes|, i requires 0 <= i < |bikes| =>
      if bikes[i].status == Maintenance then bikes[i] else bikes[i].(status := Available))
  }

  lemma ResetBikesSpec(bikes: seq<Bike>)
    ensures var r := ResetBikes(bikes);
      |r| == |bikes| &&
      (forall i :: 0 <= i < |r| ==> r[i].id == bikes[i].id) &&
      (forall i :: 0 <= i < |r| ==> (r[i].status == Maintenance <==> bikes[i].status == Maintenance)) &&
      (forall i :: 0 <= i < |r| ==> r[i].status == Maintenance || r[i].status == Available)
    ensures ResetBikes(ResetBikes(bikes)) == ResetBikes(bikes)
  {
  }

  /** `handlePaymentSuccess`'s rewrite: the booked bikes become taken. */
  function MarkTaken(bikes: seq<Bike>, bikeIds: seq<string>): seq<Bike>
  {
    seq(|bikes|, i requires 0 <= i < |bikes| =>
      if bikes[i].id in bikeIds then bikes[i].(status := Taken) else bikes[i])
  }

  lemma MarkTakenSpec(bikes: seq<Bike>, bikeIds: seq<string>)
    ensures var r := MarkTaken(bikes, bikeIds);
      |r| == |bikes| &&
      (forall i :: 0 <= i < |r| ==> r[i].id == bikes[i].id) &&
      (forall i :: 0 <= i < |r| ==> (r[i].status == Taken <==> bikes[i].id in bikeIds || bikes[i].status == Taken)) &&
      (forall i :: 0 <= i < |r| && bikes[i].id !in bikeIds ==> r[i] == bikes[i])
  {
  }

  /** The final screen's timer calls `resetToHome`, which turns the bikes just marked
      taken back into available ones: after a booking completes and the final screen
      times out, the bike statuses are as if the booking had never been paid. (The
      booked bikes are never under maintenance, since the booking screen refuses those.) */
  lemma ResetReleasesBookedBikes(bikes: seq<Bike>, bikeIds: seq<string>)
    requires forall i :: 0 <= i < |bikes| && bikes[i].id in bikeIds ==> bikes[i].status != Maintenance
    ensures ResetBikes(MarkTaken(bikes, bikeIds)) == ResetBikes(bikes)
  {
    var a, b := ResetBikes(MarkTaken(bikes, bikeIds)), ResetBikes(bikes);
    assert |a| == |b|;
    forall i | 0 <= i < |a|
      ensures a[i] == b[i]
    {
    }
  }

  // Reviews and ratings

  function RatingSum(reviews: seq<Review>): real
  {
    Sum(reviews, (r: Review) => r.rating as real)
  }

  /** The average of the review ratings. */
  function MeanRating(reviews: seq<Review>): real
    requires |reviews| > 0
  {
    RatingSum(reviews) / |reviews| as real
  }

  predicate RatingsInRange(reviews: seq<Review>)
  {
    forall i :: 0 <= i < |reviews| ==> 1 <= reviews[i].rating <= 5
  }

  lemma {:induction false} RatingSumBounds(reviews: seq<Review>)
    requires RatingsInRange(reviews)
    ensures |reviews| as real <= RatingSum(reviews) <= 5.0 * |reviews| as real
  {
    if reviews != [] {
      assert RatingsInRange(reviews[1..]) by {
        forall i | 0 <= i < |reviews[1..]|
          ensures 1 <= reviews[1..][i].rating <= 5
        {
          assert reviews[1..][i] == reviews[i + 1];
        }
      }
      RatingSumBounds(reviews[1..]);
    }
  }

  /** With every rating between 1 and 5 stars the average is too. */
  lemma MeanRatingBounds(reviews: seq<Review>)
    requires |reviews| > 0 && RatingsInRange(reviews)
    ensures 1.0 <= MeanRating(reviews) <= 5.0
  {
    RatingSumBounds(reviews);
    QuotientWithin(RatingSum(reviews), |reviews| as real, 1.0, 5.0);
  }

  lemma QuotientWithin(s: real, n: real, lo: real, hi: real)
    requires n > 0.0 && lo * n <= s <= hi * n
    ensures lo <= s / n <= hi
  {
    var q := s / n;
    assert q * n == s;
    assert (q - lo) * n >= 0.0;
    assert (hi - q) * n >= 0.0;
  }

  /** `parseFloat(x.toFixed(1))` on the exact value: rounded to the nearest tenth,
      halves going up. */
  function RoundToTenth(x: real): (r: real)
    ensures (r * 10.0).Floor as real == r * 10.0
    ensures r - 0.05 <= x < r + 0.05
  {
    (x * 10.0 + 0.5).Floor as real / 10.0
  }

  /** Rounding a rating in [1, 5] stays in [1, 5]. */
  lemma RoundToTenthBounds(x: real)
    requires 1.0 <= x <= 5.0
    ensures 1.0 <= RoundToTenth(x) <= 5.0
  {
    var r := RoundToTenth(x);
    var n := (r * 10.0).Floor;
    assert n as real == r * 10.0;
    assert 9.5 < n as real < 50.5;
    assert 10 <= n <= 50;
  }

  /** The instructor after `handleSubmitReview`: the review is appended and the rating
      becomes the rounded average of all reviews. */
  function AddReview(inst: Instructor, review: Review): Instructor
  {
    var newReviews := inst.reviews + [review];
    inst.(reviews := newReviews, rating := RoundToTenth(MeanRating(newReviews)))
  }

  /** `handleSubmitReview`'s update of the instructor list. */
  function SubmitReview(instructors: seq<Instructor>, instructorId: string, review: Review): seq<Instructor>
  {
    seq(|instructors|, i requires 0 <= i < |instructors| =>
      if instructors[i].id == instructorId then AddReview(instructors[i], review) else instructors[i])
  }

  /** Only the named instructor changes: it gains the review at the end, keeps its other
      fields, and its rating, when all its ratings are 1 to 5 stars, stays within 1 to 5
      and within 0.05 of the true average. */
  lemma SubmitReviewSpec(instructors: seq<Instructor>, instructorId: string, review: Review)
    ensures var r := SubmitReview(instructors, instructorId, review);
      |r| == |instructors| &&
      (forall i :: 0 <= i < |r| ==> r[i].id == instructors[i].id && r[i].name == instructors[i].name &&
                                    r[i].bio == instructors[i].bio && r[i].avatarUrl == instructors[i].avatarUrl) &&
      (forall i :: 0 <= i < |r| && instructors[i].id != instructorId ==> r[i] == instructors[i]) &&
      (forall i :: 0 <= i < |r| && instructors[i].id == instructorId ==>
         r[i].reviews == instructors[i].reviews + [review] &&
         var mean := MeanRating(instructors[i].reviews + [review]);
         mean - 0.05 < r[i].rating <= mean + 0.05)
    ensures forall i :: (0 <= i < |instructors| && instructors[i].id == instructorId &&
                         RatingsInRange(instructors[i].reviews) && 1 <= review.rating <= 5) ==>
        1.0 <= SubmitReview(instructors, instructorId, review)[i].rating <= 5.0
  {
    forall i | 0 <= i < |instructors| && instructors[i].id == instructorId &&
      RatingsInRange(instructors[i].reviews) && 1 <= review.rating <= 5
      ensures 1.0 <= SubmitReview(instructors, instructorId, review)[i].rating <= 5.0
    {
      var rs := instructors[i].reviews + [review];
      assert RatingsInRange(rs);
      MeanRatingBounds(rs);
      RoundToTenthBounds(MeanRating(rs));
    }
  }

  /** The stored rating is recomputed from the reviews alone: the seeded 4.9 of the
      first instructor, whose two seeded reviews both have 5 stars, becomes 5 as soon as
      another 5-star review arrives. */
  lemma SeedRatingDiscardedOnReview(userName: string, comment: string)
    ensures Constants.SampleInstructors[0].rating == 4.9
    ensures AddReview(Constants.SampleInstructors[0], Review(userName, 5, comment)).rating == 5.0
  {
    var inst := Constants.SampleInstructors[0];
    var rs := inst.reviews + [Review(userName, 5, comment)];
    var single := [Review(userName, 5, comment)];
    assert rs[1..][1..] == single;
    assert single[1..] == [];
    assert Sum(single, (r: Review) => r.rating as real) == 5.0 + Sum(single[1..], (r: Review) => r.rating as real);
    assert RatingSum(single) == 5.0;
    assert RatingSum(rs[1..]) == 10.0;
    assert RatingSum(rs) == 15.0;
    assert MeanRating(rs) == 5.0;
    assert (5.0 * 10.0 + 0.5).Floor == 50;
  }

  // The rendered screen

  datatype AppState = AppState(
    view: View, navTab: NavTab,
    usersData: seq<User>, currentUser: User,
    instructors: seq<Instructor>, classes: seq<Class>, advertisements: seq<Advertisement>,
    chatThread: ChatThread, bankAccounts: seq<BankAccount>, payments: seq<PaymentRecord>,
    pricing: Pricing, rewards: seq<Reward>, loginMessage: Option<LoginNotice>,
    selectedClass: Option<Class>, selectedInstructor: Option<Instructor>,
    bookingDetails: Option<BookingDetails>, finalMessage: FinalMessage, bikes: seq<Bike>)

  /** The state the component mounts with; `now` is the clock reading the seed chat
      thread is stamped from. */
  function InitialState(now: int): AppState
  {
    AppState(Splash, HomeTab, Constants.SampleUsers, Constants.SampleUsers[0],
             Constants.SampleInstructors, Constants.SampleClasses, Constants.SampleAdvertisements,
             Constants.SampleChatThread(now), Constants.InitialBankAccounts, Constants.SamplePayments,
             Constants.InitialPricing, Constants.InitialRewards, None,
             None, None, None, FinalMessage("", ""), Constants.GenerateBikeLayout(InitialBikeCount))
  }

  /** What `renderContent` draws, with the props that carry the shell's state. */
  datatype Screen =
    | ShowSplash
    | ShowLogin(notice: Option<LoginNotice>)
    | ShowCreateAccount
    | ShowForgotPassword
    | ShowHome(user: User, classes: seq<Class>, instructors: seq<Instructor>, advertisements: seq<Advertisement>)
    | ShowBooking(classInfo: Class, instructor: Instructor, pricing: Pricing, bikes: seq<Bike>)
    | ShowPayment(classInfo: Class, details: BookingDetails, pricing: Pricing)
    | ShowInstructor(instructor: Instructor, userName: string)
    | ShowChat(thread: ChatThread)
    | ShowProfile(user: User, rewards: seq<Reward>)
    | ShowAdminLogin
    | ShowAdminDashboard
    | ShowQRScanner
    | ShowFinal(title: string, message: string)
    | ShowNothing

  function FindInstructor(instructors: seq<Instructor>, id: string): Option<Instructor>
  {
    Find(instructors, (i: Instructor) => i.id == id)
  }

  function RenderContent(s: AppState): Screen
  {
    match s.view
    case Splash => ShowSplash
    case Login => ShowLogin(s.loginMessage)
    case CreateAccount => ShowCreateAccount
    case ForgotPassword => ShowForgotPassword
    case Home => ShowHome(s.currentUser, s.classes, s.instructors, s.advertisements)
    case Booking =>
      if s.selectedClass.Some? then
        match FindInstructor(s.instructors, s.selectedClass.value.instructorId)
        case Some(inst) => ShowBooking(s.selectedClass.value, inst, s.pricing, s.bikes)
        case None => ShowNothing
      else ShowNothing
    case Payment =>
      if s.selectedClass.Some? && s.bookingDetails.Some? then
        ShowPayment(s.selectedClass.value, s.bookingDetails.value, s.pricing)
      else ShowNothing
    case InstructorProfile =>
      if s.selectedInstructor.Some? then ShowInstructor(s.selectedInstructor.value, s.currentUser.name)
      else ShowNothing
    case Chat => ShowChat(s.chatThread)
    case Profile => ShowProfile(s.currentUser, s.rewards)
    case AdminLogin => ShowAdminLogin
    case AdminDashboard => ShowAdminDashboard
    case QRScanner => ShowQRScanner
    case Final => ShowFinal(s.finalMessage.title, s.finalMessage.message)
  }

  /** What the handlers keep true of the shell's state: the highlighted tab is the
      tab of the screen shown (or of the screen the flow started from), the booking,
      payment and instructor screens have their selections, and the final screen
      has a success message. */
  ghost predicate Consistent(s: AppState)
  {
    ConsistentScreen(s.view, s.navTab, s.selectedClass, s.selectedInstructor, s.bookingDetails, s.finalMessage)
  }

  /** `Consistent`, on the six fields it constrains. */
  ghost predicate ConsistentScreen(view: View, navTab: NavTab, selectedClass: Option<Class>,
                                   selectedInstructor: Option<Instructor>,
                                   bookingDetails: Option<BookingDetails>, finalMessage: FinalMessage)
  {
    match view
    case Home | Chat | Profile => view == TabView(navTab)
    case Booking => navTab == HomeTab && selectedClass.Some?
    case Payment => navTab == HomeTab && selectedClass.Some? && bookingDetails.Some?
    case InstructorProfile => navTab == HomeTab && selectedInstructor.Some?
    case Final => navTab == HomeTab && finalMessage.title == SuccessTitle && |finalMessage.message| > 0
    case AdminLogin | AdminDashboard | QRScanner => navTab == ProfileTab
    case Splash | Login | CreateAccount | ForgotPassword => true
  }

  /** In a consistent state the `null` fallbacks of `renderContent` are reached in one
      case only: the booking screen for a class whose instructor id names no instructor
      in the list. That screen has no back button and no navigation bar. */
  lemma RenderNothingOnlyForMissingInstructor(s: AppState)
    requires Consistent(s)
    ensures RenderContent(s) == ShowNothing <==>
      s.view == Booking && FindInstructor(s.instructors, s.selectedClass.value.instructorId).None?
    ensures RenderContent(s).ShowBooking? ==>
      RenderContent(s).instructor in s.instructors &&
      RenderContent(s).instructor.id == s.selectedClass.value.instructorId
  {
  }

  lemma InitialStateConsistent(now: int)
    ensures Consistent(InitialState(now))
    ensures RenderContent(InitialState(now)) == ShowSplash && !ShowNav(InitialState(now).view)
  {
  }

  /** The callbacks that only call `setView`, each wired to one screen. */
  datatype Link = ToCreateAccount | ToForgotPassword | BookingBack | PaymentBack | InstructorBack
                | ToAdminLogin | Logout | AdminLoginBack | AdminLoginSuccess | ToQRScanner
                | AdminExit | QRScannerBack

  /** The screen whose props carry the callback. */
  function LinkSource(l: Link): View
  {
    match l
    case ToCreateAccount => Login
    case ToForgotPassword => Login
    case BookingBack => Booking
    case PaymentBack => Payment
    case InstructorBack => InstructorProfile
    case ToAdminLogin => Profile
    case Logout => Profile
    case AdminLoginBack => AdminLogin
    case AdminLoginSuccess => AdminLogin
    case ToQRScanner => AdminDashboard
    case AdminExit => AdminDashboard
    case QRScannerBack => QRScanner
  }

  function LinkTarget(l: Link): View
  {
    match l
    case ToCreateAccount => CreateAccount
    case ToForgotPassword => ForgotPassword
    case BookingBack => Home
    case PaymentBack => Booking
    case InstructorBack => Home
    case ToAdminLogin => AdminLogin
    case Logout => Login
    case AdminLoginBack => Profile
    case AdminLoginSuccess => AdminDashboard
    case ToQRScanner => QRScanner
    case AdminExit => Profile
    case QRScannerBack => AdminDashboard
  }

  /** Every link leaves the screen it is drawn on. */
  lemma LinksLeave(l: Link)
    ensures LinkTarget(l) != LinkSource(l)
  {
  }

  /** The user list after `handleUpdateUser`. */
  function ReplaceUser(users: seq<User>, updated: User): seq<User>
  {
    ReplaceById(users, (u: User) => u.id, updated)
  }

  class Controller {
    var view: View
    var navTab: NavTab
    var usersData: seq<User>
    var currentUser: User
    var instructors: seq<Instructor>
    var classes: seq<Class>
    var advertisements: seq<Advertisement>
    var chatThread: ChatThread
    var bankAccounts: seq<BankAccount>
    var payments: seq<PaymentRecord>
    var pricing: Pricing
    var rewards: seq<Reward>
    var loginMessage: Option<LoginNotice>
    var selectedClass: Option<Class>
    var selectedInstructor: Option<Instructor>
    var bookingDetails: Option<BookingDetails>
    var finalMessage: FinalMessage
    var bikes: seq<Bike>

    function Snapshot(): AppState
      reads this
    {
      AppState(view, navTab, usersData, currentUser, instructors, classes, advertisements,
               chatThread, bankAccounts, payments, pricing, rewards, loginMessage,
               selectedClass, selectedInstructor, bookingDetails, finalMessage, bikes)
    }

    ghost predicate Valid()
      reads this
    {
      ConsistentScreen(view, navTab, selectedClass, selectedInstructor, bookingDetails, finalMessage)
    }

    constructor (now: int)
      ensures Snapshot() == InitialState(now) && Valid()
    {
      var s := InitialState(now);
      view, navTab, usersData, currentUser := s.view, s.navTab, s.usersData, s.currentUser;
      instructors, classes, advertisements, chatThread := s.instructors, s.classes, s.advertisements, s.chatThread;
      bankAccounts, payments, pricing, rewards := s.bankAccounts, s.payments, s.pricing, s.rewards;
      loginMessage, selectedClass, selectedInstructor := s.loginMessage, s.selectedClass, s.selectedInstructor;
      bookingDetails, finalMessage, bikes := s.bookingDetails, s.finalMessage, s.bikes;
      InitialStateConsistent(now);
    }

    /** `resetToHome`: back to the home tab, the booking forgotten, bikes released. */
    method ResetToHome()
      requires Valid()
      modifies this
      ensures Valid()
      ensures Snapshot() == old(Snapshot()).(view := Home, navTab := HomeTab, selectedClass := None,
                                             bookingDetails := None, bikes := ResetBikes(old(bikes)))
    {
      GoHome();
      ClearBooking();
      ReleaseBikes();
    }

    /** `setView('home')` and `setNavTab('home')` together. */
    method GoHome()
      requires Valid()
      modifies this
      ensures Valid()
      ensures Snapshot() == old(Snapshot()).(view := Home, navTab := HomeTab)
    {
      view, navTab := Home, HomeTab;
    }

    /** `setSelectedClass(null)` and `setBookingDetails(null)`, once the home view is shown. */
    method ClearBooking()
      requires Valid() && view == Home
      modifies this
      ensures Valid()
      ensures Snapshot() == old(Snapshot()).(selectedClass := None, bookingDetails := None)
    {
      selectedClass, bookingDetails := None, None;
    }

    /** `resetToHome`'s `setBikes` call. */
    method ReleaseBikes()
      requires Valid()
      modifies this
      ensures Valid()
      ensures Snapshot() == old(Snapshot()).(bikes := ResetBikes(old(bikes)))
    {
      bikes := ResetBikes(bikes);
    }

    /** `handleUserLogin`. */
    method UserLogin()
      requires Valid() && view == Login
      modifies this
      ensures Valid()
      ensures Snapshot() == old(Snapshot()).(loginMessage := None, view := Home, navTab := HomeTab)
    {
      loginMessage := None;
      GoHome();
    }

    /** `handleAccountCreationSuccess`. */
    method AccountCreationSuccess()
      requires Valid() && view == CreateAccount
      modifies this
      ensures Valid()
      ensures Snapshot() == old(Snapshot()).(loginMessage := Some(LoginNotice(SuccessNotice, AccountCreatedText)),
                                             view := Login)
    {
      loginMessage, view := Some(LoginNotice(SuccessNotice, AccountCreatedText)), Login;
    }

    /** `handlePasswordResetSuccess`. */
    method PasswordResetSuccess()
      requires Valid() && view == ForgotPassword
      modifies this
      ensures Valid()
      ensures Snapshot() == old(Snapshot()).(loginMessage := Some(LoginNotice(InfoNotice, ResetRequestedText)),
                                             view := Login)
    {
      loginMessage, view := Some(LoginNotice(InfoNotice, ResetRequestedText)), Login;
    }

    /** `handleBackToLogin`, from the create-account and forgot-password screens. */
    method BackToLogin()
      requires Valid() && (view == CreateAccount || view == ForgotPassword)
      modifies this
      ensures Valid()
      ensures Snapshot() == old(Snapshot()).(loginMessage := None, view := Login)
    {
      loginMessage, view := None, Login;
    }

    /** The splash timer: 2.5 seconds after the splash screen appears, the login screen. */
    method SplashTimerFired()
      requires Valid() && view == Splash
      modifies this
      ensures Valid()
      ensures Snapshot() == old(Snapshot()).(view := Login)
    {
      view := Login;
    }

    /** The final screen's timer: four seconds later, `resetToHome`. */
    method FinalTimerFired()
      requires Valid() && view == Final
      modifies this
      ensures Valid()
      ensures Snapshot() == old(Snapshot()).(view := Home, navTab := HomeTab, selectedClass := None,
                                             bookingDetails := None, bikes := ResetBikes(old(bikes)))
    {
      ResetToHome();
    }

    /** `logoutAdmin`: thirty minutes without input on the dashboard lead back to the profile. */
    method AdminInactivityTimeout()
      requires Valid() && view == AdminDashboard
      modifies this
      ensures Valid()
      ensures Snapshot() == old(Snapshot()).(view := Profile)
    {
      view := Profile;
    }

    /** `handleSelectClass`, from a class card on the home screen. */
    method SelectClass(cls: Class)
      requires Valid() && view == Home && cls in classes
      modifies this
      ensures Valid()
      ensures Snapshot() == old(Snapshot()).(selectedClass := Some(cls), view := Booking)
    {
      selectedClass, view := Some(cls), Booking;
    }

    /** `handleSelectInstructor`, from an instructor card on the home screen. */
    method SelectInstructor(inst: Instructor)
      requires Valid() && view == Home && inst in instructors
      modifies this
      ensures Valid()
      ensures Snapshot() == old(Snapshot()).(selectedInstructor := Some(inst), view := InstructorProfile)
    {
      selectedInstructor, view := Some(inst), InstructorProfile;
    }

    /** `handleBookingConfirm`. */
    method BookingConfirm(bikeIds: seq<string>, partySize: int)
      requires Valid() && view == Booking
      modifies this
      ensures Valid()
      ensures Snapshot() == old(Snapshot()).(bookingDetails := Some(BookingDetails(bikeIds, partySize)),
                                             view := Payment)
    {
      bookingDetails, view := Some(BookingDetails(bikeIds, partySize)), Payment;
    }

    /** `handlePaymentSuccess`: the success message, the booked bikes taken, the final
        screen. On the payment screen the booking details are always present. */
    method PaymentSuccess(message: Option<string>)
      requires Valid() && view == Payment
      modifies this
      ensures Valid()
      ensures Snapshot() == old(Snapshot()).(finalMessage := FinalMessage(SuccessTitle, ConfirmationText(message)),
                                             bikes := MarkTaken(old(bikes), old(bookingDetails).value.bikeIds),
                                             view := Final)
    {
      finalMessage := FinalMessage(SuccessTitle, ConfirmationText(message));
      TakeBikes(bookingDetails.value.bikeIds);
      ShowFinal();
    }

    /** `handlePaymentSuccess`'s `setBikes` call. */
    method TakeBikes(bikeIds: seq<string>)
      requires Valid()
      modifies this
      ensures Valid()
      ensures Snapshot() == old(Snapshot()).(bikes := MarkTaken(old(bikes), bikeIds))
    {
      bikes := MarkTaken(bikes, bikeIds);
    }

    /** `setView('final')`, once the success message is set. */
    method ShowFinal()
      requires Valid() && view == Payment
      requires finalMessage.title == SuccessTitle && |finalMessage.message| > 0
      modifies this
      ensures Valid()
      ensures Snapshot() == old(Snapshot()).(view := Final)
    {
      view := Final;
    }

    /** `handleNavigate`, from the bottom navigation. */
    method Navigate(tab: NavTab)
      requires Valid() && ShowNav(view)
      modifies this
      ensures Valid() && ShowNav(view)
      ensures Snapshot() == old(Snapshot()).(navTab := tab, view := TabView(tab))
    {
      navTab, view := tab, TabView(tab);
    }

    /** `handleSubmitReview`. The instructor screen keeps showing the copy stored in
        `selectedInstructor`, which this handler does not refresh. */
    method SubmitReviewFor(instructorId: string, review: Review)
      requires Valid() && view == InstructorProfile
      modifies this
      ensures Valid()
      ensures Snapshot() == old(Snapshot()).(instructors := SubmitReview(old(instructors), instructorId, review))
      ensures selectedInstructor == old(selectedInstructor)
    {
      instructors := SubmitReview(instructors, instructorId, review);
    }

    /** `handleUpdateUser`, from the profile editor. */
    method UpdateUser(updated: User)
      requires Valid() && view == Profile
      modifies this
      ensures Valid()
      ensures Snapshot() == old(Snapshot()).(currentUser := updated, usersData := ReplaceUser(old(usersData), updated))
    {
      currentUser, usersData := updated, ReplaceUser(usersData, updated);
    }

    /** `handleBikeCountChange`, from the dashboard: a fresh layout of `count` bikes. */
    method BikeCountChange(count: int)
      requires Valid() && view == AdminDashboard
      modifies this
      ensures Valid()
      ensures Snapshot() == old(Snapshot()).(bikes := Constants.GenerateBikeLayout(count))
    {
      bikes := Constants.GenerateBikeLayout(count);
    }

    /** One of the plain `setView` callbacks. */
    method FollowLink(l: Link)
      requires Valid() && view == LinkSource(l)
      modifies this
      ensures Valid()
      ensures Snapshot() == old(Snapshot()).(view := LinkTarget(l))
    {
      view := LinkTarget(l);
    }

    /* The state setters handed to the screens, each usable only while a screen that
       receives it is shown: all of them on the dashboard, the bike setter also on the
       booking screen and the chat setter also on the chat screen. */

    /** `setInstructors`: replaces the instructor list. */
    method SetInstructors(x: seq<Instructor>)
      requires Valid() && view == AdminDashboard
      modifies this
      ensures Valid()
      ensures Snapshot() == old(Snapshot()).(instructors := x)
    {
      instructors := x;
    }

    /** `setClasses`: replaces the class list. */
    method SetClasses(x: seq<Class>)
      requires Valid() && view == AdminDashboard
      modifies this
      ensures Valid()
      ensures Snapshot() == old(Snapshot()).(classes := x)
    {
      classes := x;
    }

    /** `setPayments`: replaces the payment list. */
    method SetPayments(x: seq<PaymentRecord>)
      requires Valid() && view == AdminDashboard
      modifies this
      ensures Valid()
      ensures Snapshot() == old(Snapshot()).(payments := x)
    {
      payments := x;
    }

    /** `setAdvertisements`: replaces the advertisement list. */
    method SetAdvertisements(x: seq<Advertisement>)
      requires Valid() && view == AdminDashboard
      modifies this
      ensures Valid()
      ensures Snapshot() == old(Snapshot()).(advertisements := x)
    {
      advertisements := x;
    }

    /** `setAppPricing`: replaces the prices. */
    method SetPricing(x: Pricing)
      requires Valid() && view == AdminDashboard
      modifies this
      ensures Valid()
      ensures Snapshot() == old(Snapshot()).(pricing := x)
    {
      pricing := x;
    }

    /** `setBankAccounts`: replaces the bank accounts. */
    method SetBankAccounts(x: seq<BankAccount>)
      requires Valid() && view == AdminDashboard
      modifies this
      ensures Valid()
      ensures Snapshot() == old(Snapshot()).(bankAccounts := x)
    {
      bankAccounts := x;
    }

    /** `setBikes`: replaces the bike layout. */
    method SetBikes(x: seq<Bike>)
      requires Valid() && (view == AdminDashboard || view == Booking)
      modifies this
      ensures Valid()
      ensures Snapshot() == old(Snapshot()).(bikes := x)
    {
      bikes := x;
    }

    /** `setChatThread`: replaces the chat thread. */
    method SetChatThread(x: ChatThread)
      requires Valid() && (view == AdminDashboard || view == Chat)
      modifies this
      ensures Valid()
      ensures Snapshot() == old(Snapshot()).(chatThread := x)
    {
      chatThread := x;
    }

    /** `setRewards`: replaces the reward list. */
    method SetRewards(x: seq<Reward>)
      requires Valid() && view == AdminDashboard
      modifies this
      ensures Valid()
      ensures Snapshot() == old(Snapshot()).(rewards := x)
    {
      rewards := x;
    }

    /** `setUsersData`: replaces the user roster. */
    method SetUsers(x: seq<User>)
      requires Valid() && view == AdminDashboard
      modifies this
      ensures Valid()
      ensures Snapshot() == old(Snapshot()).(usersData := x)
    {
      usersData := x;
    }
  }

  /** The current user and the stored record with that id agree after a profile save,
      and the other users are untouched. */
  lemma ReplaceUserSpec(users: seq<User>, updated: User)
    ensures var r := ReplaceUser(users, updated);
      |r| == |users| &&
      (forall i :: 0 <= i < |r| && users[i].id == updated.id ==> r[i] == updated) &&
      (forall i :: 0 <= i < |r| && users[i].id != updated.id ==> r[i] == users[i])
    ensures (exists i :: 0 <= i < |users| && users[i].id == updated.id) ==> updated in ReplaceUser(users, updated)
  {
    ReplaceByIdSpec(users, (u: User) => u.id, updated);
  }
}
