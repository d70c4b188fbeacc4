/** The domain records and enumerations shared by every screen (types.ts).
    JavaScript numbers become `int` for ids and counts and `real` for money
    and ratings; `Date` timestamps become milliseconds. */
module Types {

  datatype Option<+T> = None | Some(value: T)

  datatype User = User(id: string, name: string, email: string, level: string,
                       classesCompleted: nat, avatarUrl: string)

  datatype Review = Review(userName: string, rating: int, comment: string)

  datatype Instructor = Instructor(id: string, name: string, avatarUrl: string, bio: string,
                                   rating: real, reviews: seq<Review>)

  /** A class refers to its instructor by id; nothing forces that id to exist. */
  datatype Class = Class(id: int, name: string, instructorId: string, time: string,
                         duration: int, spotsLeft: int)

  datatype Reward = Reward(id: int, title: string, description: string, requiredClasses: int)

  datatype AdType = Video | Image

  datatype Advertisement = Advertisement(id: int, adType: AdType, title: string, mediaUrl: string,
                                         thumbnailUrl: Option<string>)

  datatype Sender = FromUser | FromAdmin

  datatype AttachmentType = ImageAttachment | PaymentProof

  datatype Attachment = Attachment(kind: AttachmentType, url: string, fileName: Option<string>)

  datatype Message = Message(id: string, sender: Sender, text: string, timestamp: int,
                             attachment: Option<Attachment>)

  datatype ChatThread = ChatThread(userId: string, userName: string, unread: bool,
                                   messages: seq<Message>)

  /** Per-person prices: one rider, each of two riders, each of three riders. */
  datatype Pricing = Pricing(individual: real, group2: real, group3: real)

  datatype IdentificationType = Ruc | Cedula

  datatype AccountType = Corriente | Ahorro

  datatype BankAccount = BankAccount(id: int, bankName: string, identificationType: IdentificationType,
                                     identificationNumber: string, accountType: AccountType,
                                     accountNumber: string)

  datatype PaymentMethod = Card | Transfer

  datatype PaymentStatus = Completed | Pending | Rejected

  datatype PaymentRecord = PaymentRecord(id: string, userName: string, className: string, amount: real,
                                         paymentMethod: PaymentMethod, status: PaymentStatus, date: string)

  datatype BikeStatus = Available | Taken | Selected | Maintenance

  datatype Bike = Bike(id: string, status: BikeStatus)

  /** What the booking screen hands to the payment screen (declared inline in App.tsx). */
  datatype BookingDetails = BookingDetails(bikeIds: seq<string>, partySize: int)
}
