/**
 * One row of the transaction list: an icon, a title and a subtitle chosen by
 * the transaction's type, and the amount with a sign and a colour. The type is
 * a free string; the five known values are classified by KindOf and any other
 * string falls to the default case of each choice.
 */
module TransactionItem {
  import opened Wrappers
  import WalletHeader

  datatype TxKind = Send | Receive | Earn | Stake | Unstake | Unknown

  /** The switch on the type string. */
  function KindOf(tag: string): TxKind
  {
    if tag == "send" then Send
    else if tag == "receive" then Receive
    else if tag == "earn" then Earn
    else if tag == "stake" then Stake
    else if tag == "unstake" then Unstake
    else Unknown
  }

  /** The transaction fields a row reads; a missing or empty address is `None` or `Some("")`. */
  datatype Transaction = Transaction(kind: string, timestamp: int, address: Option<string>)

  /** The palette entries the row uses, by their names in the colour constants. */
  datatype Colour = Error | Success | Primary | Secondary | Warning | TextSecondary | Text

  datatype Glyph = ArrowUpRight | ArrowDownRight | Coins | LockKeyhole | Unlock | Clock

  datatype Icon = Icon(glyph: Glyph, colour: Colour)

  function GetIcon(tag: string): (icon: Icon)
    ensures icon.glyph == Clock <==> KindOf(tag) == Unknown
    ensures KindOf(tag) == Unknown ==> icon.colour == TextSecondary
    ensures KindOf(tag) == Send ==> icon == Icon(ArrowUpRight, Error)
    ensures KindOf(tag) == Receive ==> icon == Icon(ArrowDownRight, Success)
    ensures KindOf(tag) == Earn ==> icon == Icon(Coins, Primary)
    ensures KindOf(tag) == Stake ==> icon == Icon(LockKeyhole, Secondary)
    ensures KindOf(tag) == Unstake ==> icon == Icon(Unlock, Warning)
  {
    match KindOf(tag)
    case Send => Icon(ArrowUpRight, Error)
    case Receive => Icon(ArrowDownRight, Success)
    case Earn => Icon(Coins, Primary)
    case Stake => Icon(LockKeyhole, Secondary)
    case Unstake => Icon(Unlock, Warning)
    case Unknown => Icon(Clock, TextSecondary)
  }

  /** The five known types get five different icons; all others share the clock. */
  lemma IconIdentifiesKind(a: string, b: string)
    ensures GetIcon(a) == GetIcon(b) <==> KindOf(a) == KindOf(b)
  {
  }

  function GetTitle(tag: string): (title: string)
    ensures title == "Transaction" <==> KindOf(tag) == Unknown
    ensures KindOf(tag) == Send <==> title == "Sent"
    ensures KindOf(tag) == Receive <==> title == "Received"
    ensures KindOf(tag) == Earn <==> title == "Earned"
    ensures KindOf(tag) == Stake <==> title == "Staked"
    ensures KindOf(tag) == Unstake <==> title == "Unstaked"
  {
    match KindOf(tag)
    case Send => "Sent"
    case Receive => "Received"
    case Earn => "Earned"
    case Stake => "Staked"
    case Unstake => "Unstaked"
    case Unknown => "Transaction"
  }

  /** The title tells the known types apart. */
  lemma TitleIdentifiesKind(a: string, b: string)
    ensures GetTitle(a) == GetTitle(b) <==> KindOf(a) == KindOf(b)
  {
  }

  /** A subtitle is a text, or the timestamp rendered as a local date (not modelled). */
  datatype Subtitle = Label(text: string) | LocaleDate(timestamp: int)

  predicate HasAddress(tx: Transaction)
  {
    tx.address.Some? && tx.address.value != []
  }

  function GetSubtitle(tx: Transaction): (sub: Subtitle)
    ensures HasAddress(tx) ==> sub == Label(WalletHeader.FormatAddress(tx.address.value))
    ensures !HasAddress(tx) && KindOf(tx.kind) == Earn ==> sub == Label("DNS Earning")
    ensures !HasAddress(tx) && KindOf(tx.kind) == Stake ==> sub == Label("Staking Rewards")
    ensures !HasAddress(tx) && KindOf(tx.kind) == Unstake ==> sub == Label("Unstaking")
    ensures sub.LocaleDate? <==> !HasAddress(tx) && KindOf(tx.kind) in {Send, Receive, Unknown}
    ensures sub.LocaleDate? ==> sub.timestamp == tx.timestamp
  {
    if HasAddress(tx) then Label(WalletHeader.FormatAddress(tx.address.value))
    else
      match KindOf(tx.kind)
      case Earn => Label("DNS Earning")
      case Stake => Label("Staking Rewards")
      case Unstake => Label("Unstaking")
      case _ => LocaleDate(tx.timestamp)
  }

  /** The colour style of the amount. */
  datatype AmountStyle = Negative | Positive | Neutral

  function GetAmountStyle(tag: string): (style: AmountStyle)
    ensures style == Negative <==> KindOf(tag) == Send
    ensures style == Positive <==> KindOf(tag) in {Receive, Earn, Unstake}
  {
    if tag == "send" then Negative
    else if tag == "receive" || tag == "earn" || tag == "unstake" then Positive
    else Neutral
  }

  /** The palette colour of each amount style; the three styles get three different colours. */
  function StyleColour(style: AmountStyle): (c: Colour)
    ensures c == Error <==> style == Negative
    ensures c == Success <==> style == Positive
    ensures c == Text <==> style == Neutral
  {
    match style
    case Negative => Error
    case Positive => Success
    case Neutral => Text
  }

  function GetAmountSign(tag: string): (sign: string)
    ensures sign == "-" <==> KindOf(tag) == Send
    ensures sign == "+" <==> KindOf(tag) in {Receive, Earn, Unstake}
    ensures sign == "" <==> KindOf(tag) in {Stake, Unknown}
  {
    if tag == "send" then "-"
    else if tag == "receive" || tag == "earn" || tag == "unstake" then "+"
    else ""
  }

  /** Sign and colour agree: minus is negative, plus is positive, no sign is neutral. */
  lemma SignMatchesStyle(tag: string)
    ensures GetAmountSign(tag) == "-" <==> GetAmountStyle(tag) == Negative
    ensures GetAmountSign(tag) == "+" <==> GetAmountStyle(tag) == Positive
    ensures GetAmountSign(tag) == "" <==> GetAmountStyle(tag) == Neutral
  {
  }

  /**
   * The amount is drawn in the error colour exactly for send, in the success
   * colour exactly for receive, earn and unstake, and in the text colour otherwise.
   */
  lemma AmountColour(tag: string)
    ensures StyleColour(GetAmountStyle(tag)) == Error <==> KindOf(tag) == Send
    ensures StyleColour(GetAmountStyle(tag)) == Success <==> KindOf(tag) in {Receive, Earn, Unstake}
    ensures StyleColour(GetAmountStyle(tag)) == Text <==> KindOf(tag) in {Stake, Unknown}
  {
  }
}
