/** Seed data the application starts from, and the bike layout generator (constants.ts). */
module Constants {
  import opened Types
  import opened Text

  const SampleUsers: seq<User> := [
    User("user_alex_morgan", "Alex Morgan", "alex.morgan@example.com", "Intermedio", 23,
         "https://images.unsplash.com/photo-1544005313-94ddf0286df2?w=100&h=100&fit=crop&q=80"),
    User("user_carlos_g", "Carlos G.", "carlos.g@example.com", "Principiante", 8,
         "https://images.unsplash.com/photo-1506794778202-cad84cf45f1d?w=100&h=100&fit=crop&q=80"),
    User("user_sofia_l", "Sofia L.", "sofia.l@example.com", "Avanzado", 52,
         "https://images.unsplash.com/photo-1494790108377-be9c29b29330?w=100&h=100&fit=crop&q=80")
  ]

  const SampleInstructors: seq<Instructor> := [
    Instructor("isabella_r", "Isabella Rodriguez",
               "https://images.unsplash.com/photo-1580489944761-15a19d654956?w=100&h=100&fit=crop&q=80",
               "Apasionada por el ciclismo y el fitness. Mis clases están llenas de energía y buena música para que superes tus límites.", 4.9,
               [Review("Carlos G.", 5, "¡La mejor clase! Isabella tiene una energía increíble."),
                Review("Ana P.", 5, "Música genial y una instructora que te motiva a darlo todo.")]),
    Instructor("javier_m", "Javier Moreno",
               "https://images.unsplash.com/photo-1507003211169-0a1dd7228f2d?w=100&h=100&fit=crop&q=80",
               "Con más de 10 años de experiencia, me enfoco en la técnica y la resistencia. Prepárate para sudar y sentirte más fuerte que nunca.", 4.8,
               [Review("Sofia L.", 4, "Clase muy retadora pero vale la pena.")])
  ]

  const SampleClasses: seq<Class> := [
    Class(1, "Morning Ride", "isabella_r", "07:00 AM", 45, 3),
    Class(2, "Endurance Pro", "javier_m", "06:00 PM", 60, 5),
    Class(3, "Sunset Flow", "isabella_r", "07:30 PM", 45, 2)
  ]

  const InitialRewards: seq<Reward> := [
    Reward(1, "Club de los 10", "Completa 10 clases", 10),
    Reward(2, "Guerrero del Pedal", "Completa 25 clases", 25),
    Reward(3, "Leyenda del Ciclismo", "Completa 50 clases", 50)
  ]

  const SampleAdvertisements: seq<Advertisement> := [
    Advertisement(1, Video, "Nueva Clase: Power Beats",
                  "https://storage.googleapis.com/gtv-videos-bucket/sample/ForBiggerFun.mp4",
                  Some("https://storage.googleapis.com/gtv-videos-bucket/sample/images/ForBiggerFun.jpg")),
    Advertisement(2, Image, "Promo 2x1 este Verano",
                  "https://images.unsplash.com/photo-1571019613454-1cb2f99b2d8b?w=800&q=80", None)
  ]

  /** The seed thread; its timestamps are 5, 4 and 2 minutes before `now` (milliseconds). */
  function SampleChatThread(now: int): ChatThread
  {
    ChatThread("user_alex_morgan", "Alex Morgan", true, [
      Message("m1", FromUser, "Hola, tengo una pregunta sobre mi reserva.", now - 1000 * 60 * 5, None),
      Message("m2", FromAdmin, "¡Hola Alex! Claro, dime en qué puedo ayudarte.", now - 1000 * 60 * 4, None),
      Message("m3", FromUser, "Realicé el pago por transferencia, aquí está el comprobante.", now - 1000 * 60 * 2, None)
    ])
  }

  /** The seed thread starts unread, with three messages in strictly increasing time
      order, whatever the clock reads. */
  lemma SampleChatThreadSpec(now: int)
    ensures var t := SampleChatThread(now);
      t.unread && |t.messages| == 3 &&
      forall i, j :: 0 <= i < j < 3 ==> t.messages[i].timestamp < t.messages[j].timestamp
  {
  }

  const InitialPricing: Pricing := Pricing(15.0, 13.0, 11.0)

  const InitialBankAccounts: seq<BankAccount> := [
    BankAccount(1, "Banco Ficticio", Ruc, "J-123456789", Corriente, "0102-0123-4567-8901-2345"),
    BankAccount(2, "NeoBank Digital", Cedula, "V-12345678", Ahorro, "0168-0987-6543-2109-8765")
  ]

  const SamplePayments: seq<PaymentRecord> := [
    PaymentRecord("pay1", "Carlos G.", "Morning Ride", 15.0, Card, Completed, "2024-07-28"),
    PaymentRecord("pay2", "Ana P.", "Morning Ride", 26.0, Transfer, Pending, "2024-07-28")
  ]

  /** `Array.from({ length: count }, (_, i) => ({ id: String(i + 1), status: 'available' }))`.
      A length that is zero or negative gives an empty array. */
  function GenerateBikeLayout(count: int): seq<Bike>
  {
    if count <= 0 then []
    else seq(count, i requires 0 <= i < count => Bike(NatToString(i + 1), Available))
  }

  /** The generated layout has max(count, 0) bikes with ids "1", "2", ... in order,
      pairwise distinct, each reading back as its position plus one, all available. */
  lemma GenerateBikeLayoutSpec(count: int)
    ensures var bikes := GenerateBikeLayout(count);
      |bikes| == (if count <= 0 then 0 else count) &&
      (forall i :: 0 <= i < |bikes| ==> bikes[i].status == Available) &&
      (forall i :: 0 <= i < |bikes| ==> bikes[i].id == NatToString(i + 1)) &&
      (forall i :: 0 <= i < |bikes| ==> ParseDecimal(bikes[i].id) == i + 1) &&
      (forall i, j :: 0 <= i < j < |bikes| ==> bikes[i].id != bikes[j].id)
  {
    var bikes := GenerateBikeLayout(count);
    forall i | 0 <= i < |bikes|
      ensures ParseDecimal(bikes[i].id) == i + 1
    {
      ParseNatToString(i + 1);
    }
    forall i, j | 0 <= i < j < |bikes|
      ensures bikes[i].id != bikes[j].id
    {
      NatToStringInjective(i + 1, j + 1);
    }
  }

  /** The seed rewards are listed in strictly increasing threshold order: 10, 25, 50. */
  lemma SeedRewardsAscending()
    ensures forall i, j :: 0 <= i < j < |InitialRewards| ==>
      InitialRewards[i].requiredClasses < InitialRewards[j].requiredClasses
  {
  }

  /** Every seed class names a seed instructor. */
  lemma SeedClassesHaveInstructors()
    ensures forall c :: c in SampleClasses ==>
      exists k :: 0 <= k < |SampleInstructors| && SampleInstructors[k].id == c.instructorId
  {
    assert SampleInstructors[0].id == "isabella_r";
    assert SampleInstructors[1].id == "javier_m";
  }
}
