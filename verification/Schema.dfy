/** The tables of db/database-init.pgsql, and what their keys and CHECKs demand of a row.
    Text columns hold the parameter they were given; dates are kept only where their being
    NULL or not matters.  Media is split by owner, each part keyed by its UNIQUE columns:
    the CHECK of that table allows exactly one of its three owners. */
module Schema {
  import opened Values

  /** Rows under a serial primary key. */
  datatype Table<R> = Table(rows: map<int, R>, serial: int) {
    ghost predicate Valid() {
      forall id :: id in rows ==> id < serial
    }

    function Insert(row: R): Table<R> {
      Table(rows[serial := row], serial + 1)
    }
  }

  datatype Account = Account(name: Val, email: Val, passhash: Val, dob: Val, deleted: Option<nat>)

  datatype Address = Address(country: Val, region: Val, postcode: Val, user: int)

  datatype Listing = Listing(
    contributor: int,
    title: Val,
    description: Val,
    condition: Val,
    address: int,
    category: Option<int>,
    closed: Option<nat>,
    receiver: Option<int>)

  datatype Conversation = Conversation(receiver: int, listing: int, closed: Option<nat>)

  datatype Message = Message(sender: int, conversation: int, text: Val)

  datatype MediaItem = MediaItem(id: int, mimetype: Val, url: Val)

  datatype Tables = Tables(
    accounts: Table<Account>,
    addresses: Table<Address>,
    listings: Table<Listing>,
    conversations: Table<Conversation>,
    messages: Table<Message>,
    saved: set<(int, int)>,
    userMedia: map<int, MediaItem>,
    listingMedia: map<(int, int), MediaItem>,   // (listing, index)
    messageMedia: map<int, MediaItem>,
    mediaSerial: int,
    categories: set<int>)

  predicate Open(t: Tables, l: int) {
    l in t.listings.rows && t.listings.rows[l].closed.None?
  }

  /** An open listing of this contributor. */
  predicate OwnOpen(t: Tables, contributor: int, l: int) {
    Open(t, l) && t.listings.rows[l].contributor == contributor
  }

  /** `is_address_owned_by` */
  predicate IsAddressOwnedBy(t: Tables, address: int, user: int) {
    address in t.addresses.rows && t.addresses.rows[address].user == user
  }

  // ---------------------------------------------------------------- media rows

  /** A row of the Media table, by the key it has under its owner. */
  datatype MediaRef = OfUser(user: int) | OfListing(listing: int, index: int) | OfMessage(message: int)

  predicate HasMedia(t: Tables, r: MediaRef) {
    match r
    case OfUser(u) => u in t.userMedia
    case OfListing(l, i) => (l, i) in t.listingMedia
    case OfMessage(m) => m in t.messageMedia
  }

  function MediaAt(t: Tables, r: MediaRef): MediaItem
    requires HasMedia(t, r)
  {
    match r
    case OfUser(u) => t.userMedia[u]
    case OfListing(l, i) => t.listingMedia[(l, i)]
    case OfMessage(m) => t.messageMedia[m]
  }

  /** MediaID is a serial primary key. */
  ghost predicate MediaKeys(t: Tables) {
    && (forall r :: HasMedia(t, r) ==> MediaAt(t, r).id < t.mediaSerial)
    && (forall r, s :: HasMedia(t, r) && HasMedia(t, s) && MediaAt(t, r).id == MediaAt(t, s).id ==> r == s)
  }

  // ---------------------------------------------------------------- parameters

  /** A parameter used as an integer. */
  datatype IntParam = NotInt | NullInt | Int(n: int)

  predicate IsDigits(s: string) {
    s != "" && forall i :: 0 <= i < |s| ==> '0' <= s[i] <= '9'
  }

  function Decimal(s: string): int
    requires forall i :: 0 <= i < |s| ==> '0' <= s[i] <= '9'
  {
    if s == "" then 0 else 10 * Decimal(s[..|s| - 1]) + (s[|s| - 1] as int - '0' as int)
  }

  predicate IsBlank(c: char) {
    c == ' ' || 9 <= c as int <= 13
  }

  /** Without the blanks at both ends. */
  function Trimmed(s: string): string {
    if s == "" then ""
    else if IsBlank(s[0]) then Trimmed(s[1..])
    else if IsBlank(s[|s| - 1]) then Trimmed(s[..|s| - 1])
    else s
  }

  /** Text read as an integer: digits, perhaps with a sign, perhaps between blanks. */
  function ReadInt(s: string): IntParam {
    var body := Trimmed(s);
    var signed := body != "" && (body[0] == '+' || body[0] == '-');
    var digits := if signed then body[1..] else body;
    if !IsDigits(digits) then NotInt
    else if signed && body[0] == '-' then Int(-Decimal(digits))
    else Int(Decimal(digits))
  }

  function AsInt(v: Val): IntParam {
    match v
    case Num(n) => Int(n)
    case Null => NullInt
    case Undef => NullInt
    case Str(s) => ReadInt(s)
    case _ => NotInt
  }

  function Digit(d: nat): char
    requires d < 10
  {
    (d + 48) as char
  }

  /** A number in decimal. */
  function Printed(n: nat): string {
    (if n < 10 then "" else Printed(n / 10)) + [Digit(n % 10)]
  }

  lemma OneMoreDigit(s: string, d: nat)
    requires d < 10 && (s == "" || IsDigits(s))
    ensures IsDigits(s + [Digit(d)]) && Decimal(s + [Digit(d)]) == 10 * Decimal(s) + d
  {
    assert (s + [Digit(d)])[..|s|] == s;
  }

  /** The digits of a printed number are those of the number. */
  lemma {:induction false} PrintedIsDecimal(n: nat)
    ensures IsDigits(Printed(n)) && Decimal(Printed(n)) == n
  {
    if n >= 10 {
      PrintedIsDecimal(n / 10);
      OneMoreDigit(Printed(n / 10), n % 10);
    } else {
      OneMoreDigit("", n);
    }
  }

  lemma NothingToTrim(s: string)
    requires s != "" && !IsBlank(s[0]) && !IsBlank(s[|s| - 1])
    ensures Trimmed(s) == s
  {
  }

  lemma SignedDigitsAreRead(sign: char, s: string)
    requires IsDigits(s) && (sign == '+' || sign == '-')
    ensures ReadInt([sign] + s) == Int(if sign == '-' then -Decimal(s) else Decimal(s))
  {
    var body := [sign] + s;
    assert body[|body| - 1] == s[|s| - 1] && body[1..] == s;
    NothingToTrim(body);
  }

  /** A number is read as what it is, and so is text of its digits, with a sign or without. */
  lemma NumbersAreRead(s: string, sign: char, m: int)
    requires IsDigits(s) && (sign == '+' || sign == '-')
    ensures AsInt(Num(m)) == Int(m) && AsInt(Str(s)) == Int(Decimal(s))
    ensures AsInt(Str([sign] + s)) == Int(if sign == '-' then -Decimal(s) else Decimal(s))
  {
    NothingToTrim(s);
    SignedDigitsAreRead(sign, s);
  }

  /** A sign and blanks do no harm. */
  lemma SignedAndSpaced()
    ensures AsInt(Str(" 5")) == AsInt(Str("+5")) == AsInt(Str("5")) == Int(5) && AsInt(Str("-5 ")) == Int(-5)
    ensures AsInt(Str("")) == AsInt(Str("+")) == AsInt(Str("5 5")) == NotInt
  {
    assert Decimal("5") == 5;
    assert Trimmed(" 5") == Trimmed("5") == "5" && Trimmed("+5") == "+5" && Trimmed("-5 ") == Trimmed("-5") == "-5";
    assert Trimmed("5 5") == "5 5" && "5 5"[1] == ' ';
  }

  predicate IsNull(v: Val) {
    v.Null? || v.Undef?
  }

  const NOT_NULL_VIOLATION := OtherCode("23502")
  const CHECK_VIOLATION := OtherCode("23514")
  const INVALID_TEXT := OtherCode("22P02")
  const PROTOCOL_VIOLATION := OtherCode("08P01")
  const SYNTAX_ERROR := OtherCode("42601")
  const INVALID_LIMIT := OtherCode("2201W")
}
