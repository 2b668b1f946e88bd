/** schemas/request-schemas.js: which fields each action takes, under which conditions. */
module RequestSchemas {
  import opened Values
  import opened Templates
  import opened Request

  /** What the mimetype pattern reads out of a data URI. */
  datatype DataUri = DataUri(kind: string, mimetype: Val)

  /** What the model leaves open: the outcome of the string and date checks, and what the
      sanitisers compute.  None stands for a throw. */
  datatype Oracle = Oracle(
    numeric: Val -> bool,                 // whether a string or a list reads as a number >= 0
    parseInt: Val -> Option<int>,
    dataUri: string -> Option<DataUri>,
    email: Val -> Option<bool>,
    strong: Val -> Option<bool>,
    date: Val -> Option<bool>,
    grown: Val -> Option<bool>,
    hash: Val -> Option<Val>,
    day: Val -> Option<Val>)

  type Condition = (Val, Input) -> Option<bool>

  predicate NonEmptyString(v: Val) {
    v.Str? && v.s != ""
  }

  predicate PosInt(o: Oracle, v: Val) {
    match v
    case Num(n) => n >= 0
    case Str(_) => o.numeric(v)
    case Arr(_) => o.numeric(v)
    case _ => false
  }

  /** `'country' in null` throws. */
  function Location(v: Val): Option<bool> {
    match v
    case Null => None
    case Obj(fields) =>
      Some(COUNTRY in fields && NonEmptyString(fields[COUNTRY])
           && REGION in fields && NonEmptyString(fields[REGION])
           && POSTCODE in fields && NonEmptyString(fields[POSTCODE]))
    case _ => Some(false)
  }

  function IsNonEmptyString(): Condition {
    (v: Val, input: Input) => Some(NonEmptyString(v))
  }

  function IsPosInt(o: Oracle): Condition {
    (v: Val, input: Input) => Some(PosInt(o, v))
  }

  function IsLocation(): Condition {
    (v: Val, input: Input) => Location(v)
  }

  function IsPosIntOrLocation(o: Oracle): Condition {
    (v: Val, input: Input) => if PosInt(o, v) then Some(true) else Location(v)
  }

  function IsCondition(): Condition {
    (v: Val, input: Input) => Some(v.Str? && v.s in ["poor", "average", "good", "like new", "new"])
  }

  function IsArray(): Condition {
    (v: Val, input: Input) => Some(v.Arr?)
  }

  function MatchOf(o: Oracle, v: Val): Option<DataUri> {
    if NonEmptyString(v) then o.dataUri(v.s) else None
  }

  function IsImage(o: Oracle): Condition {
    (v: Val, input: Input) =>
      match MatchOf(o, v)
      case None => Some(false)
      case Some(uri) => if uri.kind == "image" then Some(true) else None
  }

  function ImageOrVideo(o: Oracle, v: Val): Option<bool> {
    match MatchOf(o, v)
    case None => Some(false)
    case Some(uri) => if uri.kind == "image" || uri.kind == "video" then Some(true) else None
  }

  /** `media.every(IsImageOrVideo)` */
  function EveryMedia(o: Oracle, items: seq<Val>): Option<bool> {
    if items == [] then Some(true) else
      var before := EveryMedia(o, items[..|items| - 1]);
      if before == Some(true) then ImageOrVideo(o, items[|items| - 1]) else before
  }

  function AllMedia(o: Oracle): Condition {
    (v: Val, input: Input) => if v.Arr? then EveryMedia(o, v.items) else None
  }

  function Check(check: Val -> Option<bool>): Condition {
    (v: Val, input: Input) => check(v)
  }

  /** The receiver is not the caller. */
  function IsNotAccount(o: Oracle): Condition {
    (v: Val, input: Input) =>
      match o.parseInt(Lookup(input, ACCOUNT_ID))
      case None => Some(true)
      case Some(n) => Some(v != Num(n))
  }

  function Same(): Val -> Option<Val> {
    (v: Val) => Some(v)
  }

  function Wrapped(): Val -> Option<Val> {
    (v: Val) => Some(Arr([v]))
  }

  function Required(name: Key, condition: Condition): Param {
    Param(name, name, true, [condition], Same())
  }

  function Optional(name: Key, condition: Condition): Param {
    Param(name, name, false, [condition], Same())
  }

  function MediaList(name: Key, o: Oracle): Param {
    Param(name, name, false, [IsArray(), AllMedia(o)], Same())
  }

  function PictureParam(o: Oracle): Param {
    Param(PICTURE, MEDIA, false, [IsImage(o)], Wrapped())
  }

  function Ids(names: seq<Key>, o: Oracle): seq<Param> {
    seq(|names|, i requires 0 <= i < |names| => Required(names[i], IsPosInt(o)))
  }

  /** The parameters of each action's request template. */
  function ParamsOf(a: Action, o: Oracle): seq<Param> {
    match a
    case SearchCategoryAction => []
    case CreateAccountAction =>
      [Param(EMAIL, EMAIL, true, [IsNonEmptyString(), Check(o.email)], Same()),
       Required(NAME, IsNonEmptyString()),
       Param(PASSWORD, PASS_HASH, true, [IsNonEmptyString(), Check(o.strong)], o.hash),
       Param(DOB, DOB, true, [Check(o.date), Check(o.grown)], o.day),
       Optional(ADDRESS, IsLocation()),
       PictureParam(o)]
    case CloseAccountAction => Ids([ACCOUNT_ID], o)
    case LoginAction =>
      [Param(EMAIL, EMAIL, true, [IsNonEmptyString(), Check(o.email)], Same()),
       Required(PASSWORD, IsNonEmptyString()),
       Param(REGISTRATION_TOKEN, DEVICE_TOKEN, false, [], Same())]
    case ModifyAccountAction =>
      [Required(ACCOUNT_ID, IsPosInt(o)),
       Optional(NAME, IsNonEmptyString()),
       Param(EMAIL, EMAIL, false, [IsNonEmptyString(), Check(o.email)], Same()),
       Param(NEW_PASSWORD, PASS_HASH, false, [IsNonEmptyString(), Check(o.strong)], o.hash),
       Param(DOB, DOB, false, [Check(o.date), Check(o.grown)], o.day),
       PictureParam(o)]
    case ViewAccountListingAction => Ids([ACCOUNT_ID, LISTING_ID], o)
    case SearchAccountListingAction => 
      Ids([ACCOUNT_ID, MAX_RESULTS, START_RESULTS], o) + [Optional(CATEGORY_ID, IsPosInt(o))]
    case SearchSavedListingAction =>
      Ids([ACCOUNT_ID, MAX_RESULTS, START_RESULTS], o)
      + [Optional(CATEGORY_ID, IsPosInt(o)), Optional(REGION, IsNonEmptyString())]
    case CreateSavedListingAction => Ids([ACCOUNT_ID, LISTING_ID], o)
    case CloseSavedListingAction => Ids([ACCOUNT_ID, LISTING_ID], o)
    case SearchAddressAction => Ids([ACCOUNT_ID], o)
    case ViewAccountAction => Ids([USER_ID, MAX_RESULTS, START_RESULTS], o)
    case ViewListingAction => Ids([LISTING_ID], o)
    case SearchListingAction =>
      [Optional(ACCOUNT_ID, IsPosInt(o))] + Ids([MAX_RESULTS, START_RESULTS], o)
      + [Optional(CATEGORY_ID, IsPosInt(o)), Optional(REGION, IsNonEmptyString())]
    case CreateListingAction =>
      [Required(ACCOUNT_ID, IsPosInt(o)),
       Required(TITLE, IsNonEmptyString()),
       Required(DESCRIPTION, IsNonEmptyString()),
       Required(LOCATION, IsPosIntOrLocation(o)),
       Required(CATEGORY_ID, IsPosInt(o)),
       Required(CONDITION, IsCondition()),
       MediaList(MEDIA, o)]
    case ModifyListingAction =>
      [Required(ACCOUNT_ID, IsPosInt(o)),
       Required(LISTING_ID, IsPosInt(o)),
       Optional(TITLE, IsNonEmptyString()),
       Optional(DESCRIPTION, IsNonEmptyString()),
       Optional(LOCATION, IsPosIntOrLocation(o)),
       Optional(CATEGORY_ID, IsPosInt(o)),
       Optional(CONDITION, IsCondition()),
       MediaList(MEDIA, o)]
    case CloseListingAction =>
      Ids([ACCOUNT_ID, LISTING_ID], o)
      + [Param(RECEIVER_ID, RECEIVER_ID, false, [IsPosInt(o), IsNotAccount(o)], Same())]
    case CreateConversationAction => Ids([ACCOUNT_ID, LISTING_ID], o)
    case CloseConversationAction => Ids([ACCOUNT_ID, CONVERSATION_ID], o)
    case CreateMessageAction =>
      Ids([ACCOUNT_ID, CONVERSATION_ID], o) + [Required(TEXT_CONTENT, IsNonEmptyString()), MediaList(MEDIA_CONTENT, o)]
    case SearchConversationAction => Ids([ACCOUNT_ID, MAX_RESULTS, START_RESULTS], o)
    case ViewConversationAction => Ids([ACCOUNT_ID, CONVERSATION_ID, MAX_RESULTS, START_RESULTS], o)
  }

  // ---------------------------------------------------------------- what comes out

  /** The fields that `Execute` and the callables of the templates look into. */
  predicate Special(key: Key) {
    || key == URL || key == MIME_TYPE || key == MEDIA_INDEX || key == DEVICE_TOKEN_SNAKE
    || key == MEDIA || key == ADDRESS || key == LOCATION
  }

  /** What a special field may hold. */
  predicate Sane(key: Key, v: Val, o: Oracle)
    requires Special(key)
  {
    if key == MEDIA then v.Arr? && forall i :: 0 <= i < |v.items| ==> MatchOf(o, v.items[i]).Some?
    else (key == ADDRESS || key == LOCATION) && !v.Null? && !v.Undef?
  }

  /** Only a list where the action takes pictures or videos; a picture is a list of one. */
  predicate Fits(a: Action, key: Key, v: Val, o: Oracle)
    requires Special(key)
  {
    && Sane(key, v, o)
    && (key == MEDIA ==>
          !a.CreateMessageAction? && (a.CreateAccountAction? || a.ModifyAccountAction? ==> |v.items| == 1))
  }

  ghost predicate Tidy(p: Param, a: Action, o: Oracle) {
    Special(p.outName) ==> forall input, v :: Processed(p, input) == Ok(Some(v)) ==> Fits(a, p.outName, v, o)
  }

  lemma {:induction false} EveryMediaMatches(o: Oracle, items: seq<Val>)
    requires EveryMedia(o, items) == Some(true)
    ensures forall i :: 0 <= i < |items| ==> MatchOf(o, items[i]).Some?
  {
    if items != [] {
      EveryMediaMatches(o, items[..|items| - 1]);
    }
  }

  /** A value that was let through meets the conditions. */
  lemma {:induction false} ConditionsHold(conditions: seq<Condition>, v: Val, input: Input, k: nat)
    requires k <= |conditions| && Verify(conditions, v, input, k).Holds?
    ensures forall i :: 0 <= i < k ==> conditions[i](v, input) == Some(true)
  {
    if k > 0 {
      ConditionsHold(conditions, v, input, k - 1);
    }
  }

  lemma MediaListTidy(a: Action, o: Oracle)
    requires a.CreateListingAction? || a.ModifyListingAction?
    ensures Tidy(MediaList(MEDIA, o), a, o)
  {
    var p := MediaList(MEDIA, o);
    forall input, v | Processed(p, input) == Ok(Some(v))
      ensures Fits(a, MEDIA, v, o)
    {
      ConditionsHold(p.conditions, input[MEDIA], input, 2);
      assert p.conditions[0](v, input) == Some(true);
      assert p.conditions[1](v, input) == Some(true);
      EveryMediaMatches(o, v.items);
    }
  }

  lemma PictureTidy(a: Action, o: Oracle)
    requires !a.CreateMessageAction?
    ensures Tidy(PictureParam(o), a, o)
  {
    var p := PictureParam(o);
    forall input, v | Processed(p, input) == Ok(Some(v))
      ensures Fits(a, MEDIA, v, o)
    {
      ConditionsHold(p.conditions, input[PICTURE], input, 1);
      assert p.conditions[0](input[PICTURE], input) == Some(true);
    }
  }

  lemma PlaceTidy(p: Param, a: Action, o: Oracle)
    requires p.inName == p.outName && (p.outName == ADDRESS || p.outName == LOCATION) && p.sanitise == Same()
    requires p.conditions == [IsLocation()] || p.conditions == [IsPosIntOrLocation(o)]
    ensures Tidy(p, a, o)
  {
    forall input, v: Val | Processed(p, input) == Ok(Some(v))
      ensures !v.Null? && !v.Undef?
    {
      ConditionsHold(p.conditions, input[p.inName], input, 1);
      assert p.conditions[0](v, input) == Some(true);
    }
  }

  ghost predicate AllTidy(params: seq<Param>, a: Action, o: Oracle) {
    forall p :: p in params ==> Tidy(p, a, o)
  }

  /** Only the names matter where no parameter is special. */
  predicate AllOrdinary(params: seq<Param>) {
    forall i :: 0 <= i < |params| ==> !Special(params[i].outName)
  }

  lemma SearchesOrdinary(a: Action, o: Oracle)
    requires Searches(a)
    ensures AllOrdinary(ParamsOf(a, o))
  {
  }

  lemma ViewsOrdinary(a: Action, o: Oracle)
    requires Views(a)
    ensures AllOrdinary(ParamsOf(a, o))
  {
  }

  lemma OthersOrdinary(a: Action, o: Oracle)
    requires !Searches(a) && !Views(a)
    requires !a.CreateAccountAction? && !a.ModifyAccountAction? && !a.CreateListingAction? && !a.ModifyListingAction?
    ensures AllOrdinary(ParamsOf(a, o))
  {
  }

  lemma CreateAccountTidy(o: Oracle)
    ensures AllTidy(ParamsOf(CreateAccountAction, o), CreateAccountAction, o)
  {
    PlaceTidy(Optional(ADDRESS, IsLocation()), CreateAccountAction, o);
    PictureTidy(CreateAccountAction, o);
  }

  lemma ModifyAccountTidy(o: Oracle)
    ensures AllTidy(ParamsOf(ModifyAccountAction, o), ModifyAccountAction, o)
  {
    PictureTidy(ModifyAccountAction, o);
  }

  lemma CreateListingTidy(o: Oracle)
    ensures AllTidy(ParamsOf(CreateListingAction, o), CreateListingAction, o)
  {
    PlaceTidy(Required(LOCATION, IsPosIntOrLocation(o)), CreateListingAction, o);
    MediaListTidy(CreateListingAction, o);
  }

  lemma ModifyListingTidy(o: Oracle)
    ensures AllTidy(ParamsOf(ModifyListingAction, o), ModifyListingAction, o)
  {
    PlaceTidy(Optional(LOCATION, IsPosIntOrLocation(o)), ModifyListingAction, o);
    MediaListTidy(ModifyListingAction, o);
  }

  /** Every parameter of every request template is tidy. */
  lemma ParamsTidy(a: Action, o: Oracle)
    ensures AllTidy(ParamsOf(a, o), a, o)
  {
    if Searches(a) {
      SearchesOrdinary(a, o);
    } else if Views(a) {
      ViewsOrdinary(a, o);
    } else if a.CreateAccountAction? {
      CreateAccountTidy(o);
    } else if a.ModifyAccountAction? {
      ModifyAccountTidy(o);
    } else if a.CreateListingAction? {
      CreateListingTidy(o);
    } else if a.ModifyListingAction? {
      ModifyListingTidy(o);
    } else {
      OthersOrdinary(a, o);
    }
    OrdinaryTidy(ParamsOf(a, o), a, o);
  }

  lemma OrdinaryTidy(params: seq<Param>, a: Action, o: Oracle)
    ensures AllOrdinary(params) ==> AllTidy(params, a, o)
  {
  }

  /** What a validated input looks like, whatever was sent. */
  ghost predicate Validated(a: Action, o: Oracle, output: Input) {
    forall key :: key in output && Special(key) ==> Fits(a, key, output[key], o)
  }

  lemma ProcessValidates(a: Action, o: Oracle, input: Input)
    ensures var r := ProcessUpTo(ParamsOf(a, o), input, |ParamsOf(a, o)|); r.Ok? ==> Validated(a, o, r.value)
  {
    ParamsTidy(a, o);
    TidyValidates(ParamsOf(a, o), a, o, input);
  }

  lemma TidyValidates(params: seq<Param>, a: Action, o: Oracle, input: Input)
    requires AllTidy(params, a, o)
    ensures var r := ProcessUpTo(params, input, |params|); r.Ok? ==> Validated(a, o, r.value)
  {
    var r := ProcessUpTo(params, input, |params|);
    if r.Ok? {
      OutputIsDeclared(params, input, |params|);
      forall key | key in r.value && Special(key)
        ensures Fits(a, key, r.value[key], o)
      {
        var i :| 0 <= i < |params| && params[i].outName == key && Processed(params[i], input) == Ok(Some(r.value[key]));
        assert Tidy(params[i], a, o);
      }
    }
  }
}
