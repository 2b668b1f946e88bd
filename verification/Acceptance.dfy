/** Which requests are accepted: exactly those whose fields are as they should be, in terms of
    what was sent. */
module Acceptance {
  import opened Values
  import opened Templates
  import opened RequestSchemas
  import opened GeneralPipe
  import opened Reachability
  import opened Asked
  import opened Answers
  import Request

  // ---------------------------------------------------------------- fields

  predicate SaysPosInt(v: Visit, key: Key) {
    SentUnder(v, key).Some? && PosInt(v.w.oracle, SentUnder(v, key).value)
  }

  predicate SaysText(v: Visit, key: Key) {
    SentUnder(v, key).Some? && SentUnder(v, key).value.Str? && SentUnder(v, key).value.s != ""
  }

  /** An address with its three parts, as text. */
  predicate IsWholeAddress(place: Val) {
    && place.Obj?
    && forall key :: key in [COUNTRY, REGION, POSTCODE] ==>
         key in place.fields && place.fields[key].Str? && place.fields[key].s != ""
  }

  predicate SaysPlace(v: Visit) {
    && SentUnder(v, LOCATION).Some?
    && (PosInt(v.w.oracle, SentUnder(v, LOCATION).value) || IsWholeAddress(SentUnder(v, LOCATION).value))
  }

  predicate SaysCondition(v: Visit) {
    SaysText(v, CONDITION) && SentUnder(v, CONDITION).value.s in ["poor", "average", "good", "like new", "new"]
  }

  /** A data URI of an image or a video. */
  predicate IsPictureOrVideo(o: Oracle, item: Val) {
    && item.Str? && item.s != "" && o.dataUri(item.s).Some?
    && (o.dataUri(item.s).value.kind == "image" || o.dataUri(item.s).value.kind == "video")
  }

  predicate SaysMediaIfAny(v: Visit, key: Key) {
    SentUnder(v, key).Some? ==>
      && SentUnder(v, key).value.Arr?
      && forall i :: 0 <= i < |SentUnder(v, key).value.items| ==>
           IsPictureOrVideo(v.w.oracle, SentUnder(v, key).value.items[i])
  }

  lemma {:induction false} EveryIsEach(o: Oracle, items: seq<Val>)
    ensures EveryMedia(o, items) == Some(true) <==> forall i :: 0 <= i < |items| ==> IsPictureOrVideo(o, items[i])
  {
    if items != [] {
      EveryIsEach(o, items[..|items| - 1]);
    }
  }

  // ---------------------------------------------------------------- one parameter

  lemma RequiredPasses(v: Visit, name: Key, condition: Condition)
    requires v.w.security.Ok?
    ensures Request.Passes(Required(name, condition), Whole(v)) <==>
              SentUnder(v, name).Some? && condition(SentUnder(v, name).value, Whole(v)) == Some(true)
  {
    WholeIsSent(v, name);
    assert forall c :: c in Required(name, condition).conditions <==> c == condition;
  }

  lemma OptionalPasses(v: Visit, name: Key, condition: Condition)
    requires v.w.security.Ok?
    ensures Request.Passes(Optional(name, condition), Whole(v)) <==>
              (SentUnder(v, name).Some? ==> condition(SentUnder(v, name).value, Whole(v)) == Some(true))
  {
    WholeIsSent(v, name);
    assert forall c :: c in Optional(name, condition).conditions <==> c == condition;
  }

  lemma MediaPasses(v: Visit, name: Key)
    requires v.w.security.Ok?
    ensures Request.Passes(MediaList(name, v.w.oracle), Whole(v)) <==> SaysMediaIfAny(v, name)
  {
    WholeIsSent(v, name);
    if SentUnder(v, name).Some? && SentUnder(v, name).value.Arr? {
      EveryIsEach(v.w.oracle, SentUnder(v, name).value.items);
    }
    var p := MediaList(name, v.w.oracle);
    assert p.conditions[0] in p.conditions && p.conditions[1] in p.conditions;
    assert forall c :: c in p.conditions ==> c == IsArray() || c == RequestSchemas.AllMedia(v.w.oracle);
  }

  lemma TextPasses(v: Visit, name: Key)
    requires v.w.security.Ok?
    ensures Request.Passes(Required(name, IsNonEmptyString()), Whole(v)) <==> SaysText(v, name)
  {
    RequiredPasses(v, name, IsNonEmptyString());
  }

  lemma IdPasses(v: Visit, name: Key)
    requires v.w.security.Ok?
    ensures Request.Passes(Required(name, IsPosInt(v.w.oracle)), Whole(v)) <==> SaysPosInt(v, name)
  {
    RequiredPasses(v, name, IsPosInt(v.w.oracle));
  }

  lemma PlacePasses(v: Visit)
    requires v.w.security.Ok?
    ensures Request.Passes(Required(LOCATION, IsPosIntOrLocation(v.w.oracle)), Whole(v)) <==> SaysPlace(v)
  {
    RequiredPasses(v, LOCATION, IsPosIntOrLocation(v.w.oracle));
    if SentUnder(v, LOCATION).Some? {
      PlaceIs(v.w.oracle, SentUnder(v, LOCATION).value, Whole(v));
    }
  }

  lemma PlaceIs(o: Oracle, place: Val, sent: Input)
    ensures IsPosIntOrLocation(o)(place, sent) == Some(true) <==> PosInt(o, place) || IsWholeAddress(place)
  {
    assert COUNTRY in [COUNTRY, REGION, POSTCODE] && REGION in [COUNTRY, REGION, POSTCODE];
    assert POSTCODE in [COUNTRY, REGION, POSTCODE];
  }

  lemma ConditionPasses(v: Visit)
    requires v.w.security.Ok?
    ensures Request.Passes(Required(CONDITION, IsCondition()), Whole(v)) <==> SaysCondition(v)
  {
    RequiredPasses(v, CONDITION, IsCondition());
  }

  // ---------------------------------------------------------------- whole requests

  /** A create-listing is accepted exactly if the caller is let in and it says who asks, and
      everything that a listing has, as it should be. */
  lemma CreateListingAccepted(v: Visit)
    requires v.action.CreateListingAction?
    ensures Accepted(v) <==>
              && v.w.security.Ok? && SaysPosInt(v, ACCOUNT_ID) && SaysText(v, TITLE) && SaysText(v, DESCRIPTION)
              && SaysPlace(v) && SaysPosInt(v, CATEGORY_ID) && SaysCondition(v) && SaysMediaIfAny(v, MEDIA)
  {
    AcceptedIff(v);
    if v.w.security.Ok? {
      ListingPasses(v);
    }
  }

  lemma ListingPasses(v: Visit)
    requires v.action.CreateListingAction? && v.w.security.Ok?
    ensures (forall p :: p in ParamsOf(v.action, v.w.oracle) ==> Request.Passes(p, Whole(v))) <==>
              && SaysPosInt(v, ACCOUNT_ID) && SaysText(v, TITLE) && SaysText(v, DESCRIPTION)
              && SaysPlace(v) && SaysPosInt(v, CATEGORY_ID) && SaysCondition(v) && SaysMediaIfAny(v, MEDIA)
  {
    var o := v.w.oracle;
    CreateListingParams(o);
    IdPasses(v, ACCOUNT_ID);
    TextPasses(v, TITLE);
    TextPasses(v, DESCRIPTION);
    PlacePasses(v);
    IdPasses(v, CATEGORY_ID);
    ConditionPasses(v);
    MediaPasses(v, MEDIA);
    NoOtherParams(o);
  }

  lemma NoOtherParams(o: Oracle)
    ensures forall p :: p in ParamsOf(CreateListingAction, o) ==>
              || p == Required(ACCOUNT_ID, IsPosInt(o)) || p == Required(TITLE, IsNonEmptyString())
              || p == Required(DESCRIPTION, IsNonEmptyString()) || p == Required(LOCATION, IsPosIntOrLocation(o))
              || p == Required(CATEGORY_ID, IsPosInt(o)) || p == Required(CONDITION, IsCondition())
              || p == MediaList(MEDIA, o)
  {
  }

  /** The receiver is not the caller: it is another number than what the caller's id reads as. */
  predicate SaysOtherReceiver(v: Visit) {
    SentUnder(v, RECEIVER_ID).Some? ==>
      var caller := v.w.oracle.parseInt(if SentUnder(v, ACCOUNT_ID).Some? then SentUnder(v, ACCOUNT_ID).value
                                        else Undef);
      && PosInt(v.w.oracle, SentUnder(v, RECEIVER_ID).value)
      && (caller.Some? ==> SentUnder(v, RECEIVER_ID).value != Num(caller.value))
  }

  function ReceiverParam(o: Oracle): Request.Param {
    Request.Param(RECEIVER_ID, RECEIVER_ID, false, [IsPosInt(o), IsNotAccount(o)], Same())
  }

  lemma OtherThanAccount(o: Oracle, receiver: Val, sent: Input)
    ensures IsNotAccount(o)(receiver, sent) == Some(true) <==>
              (o.parseInt(Lookup(sent, ACCOUNT_ID)).Some? ==>
                 receiver != Num(o.parseInt(Lookup(sent, ACCOUNT_ID)).value))
  {
  }

  lemma ReceiverPasses(v: Visit)
    requires v.w.security.Ok?
    ensures Request.Passes(ReceiverParam(v.w.oracle), Whole(v)) <==> SaysOtherReceiver(v)
  {
    var p := ReceiverParam(v.w.oracle);
    WholeIsSent(v, RECEIVER_ID);
    WholeIsSent(v, ACCOUNT_ID);
    assert p.conditions[0] in p.conditions && p.conditions[1] in p.conditions;
    assert forall c :: c in p.conditions ==> c == IsPosInt(v.w.oracle) || c == IsNotAccount(v.w.oracle);
    if SentUnder(v, RECEIVER_ID).Some? {
      assert Lookup(Whole(v), ACCOUNT_ID) == if SentUnder(v, ACCOUNT_ID).Some? then SentUnder(v, ACCOUNT_ID).value
                                             else Undef;
      OtherThanAccount(v.w.oracle, SentUnder(v, RECEIVER_ID).value, Whole(v));
    }
  }

  /** A close-listing is accepted exactly if the caller is let in and it says who asks, which
      listing, and perhaps a receiver who is someone else. */
  lemma CloseListingAccepted(v: Visit)
    requires v.action.CloseListingAction?
    ensures Accepted(v) <==>
              v.w.security.Ok? && SaysPosInt(v, ACCOUNT_ID) && SaysPosInt(v, LISTING_ID) && SaysOtherReceiver(v)
  {
    AcceptedIff(v);
    if v.w.security.Ok? {
      ClosingPasses(v);
    }
  }

  lemma ClosingPasses(v: Visit)
    requires v.action.CloseListingAction? && v.w.security.Ok?
    ensures (forall p :: p in ParamsOf(v.action, v.w.oracle) ==> Request.Passes(p, Whole(v))) <==>
              SaysPosInt(v, ACCOUNT_ID) && SaysPosInt(v, LISTING_ID) && SaysOtherReceiver(v)
  {
    var o := v.w.oracle;
    var ids, more := Ids([ACCOUNT_ID, LISTING_ID], o), [ReceiverParam(o)];
    assert ParamsOf(CloseListingAction, o) == ids + more && more[0] in more;
    assert ids == [Required(ACCOUNT_ID, IsPosInt(o)), Required(LISTING_ID, IsPosInt(o))];
    assert ids[0] in ids && ids[1] in ids;
    IdPasses(v, ACCOUNT_ID);
    IdPasses(v, LISTING_ID);
    ReceiverPasses(v);
  }

  lemma AllIdsPass(v: Visit, names: seq<Key>)
    requires v.w.security.Ok?
    ensures (forall p :: p in Ids(names, v.w.oracle) ==> Request.Passes(p, Whole(v))) <==>
              forall name :: name in names ==> SaysPosInt(v, name)
  {
    forall i: nat | i < |names|
      ensures Ids(names, v.w.oracle)[i] in Ids(names, v.w.oracle)
      ensures Request.Passes(Ids(names, v.w.oracle)[i], Whole(v)) <==> SaysPosInt(v, names[i])
    {
      IdPasses(v, names[i]);
    }
  }

  /** Closing an account, saving and forgetting a listing, and beginning and closing a
      conversation take nothing but ids: they are accepted exactly if they say them. */
  lemma IdsAccepted(v: Visit)
    requires v.action.CloseAccountAction? || v.action.CreateSavedListingAction? || v.action.CloseSavedListingAction?
          || v.action.CreateConversationAction? || v.action.CloseConversationAction?
    ensures Accepted(v) <==>
              && v.w.security.Ok? && SaysPosInt(v, ACCOUNT_ID)
              && (v.action.CloseAccountAction? || v.action.CloseConversationAction? || SaysPosInt(v, LISTING_ID))
              && (v.action.CloseConversationAction? ==> SaysPosInt(v, CONVERSATION_ID))
  {
    var names := if v.action.CloseAccountAction? then [ACCOUNT_ID]
                 else if v.action.CloseConversationAction? then [ACCOUNT_ID, CONVERSATION_ID]
                      else [ACCOUNT_ID, LISTING_ID];
    assert ParamsOf(v.action, v.w.oracle) == Ids(names, v.w.oracle);
    assert ACCOUNT_ID in names;
    AcceptedIff(v);
    if v.w.security.Ok? {
      AllIdsPass(v, names);
    }
  }

  /** A create-message is accepted exactly if the caller is let in and it says who writes, in
      which conversation, some text, and perhaps media. */
  lemma MessageAccepted(v: Visit)
    requires v.action.CreateMessageAction?
    ensures Accepted(v) <==>
              && v.w.security.Ok? && SaysPosInt(v, ACCOUNT_ID) && SaysPosInt(v, CONVERSATION_ID)
              && SaysText(v, TEXT_CONTENT) && SaysMediaIfAny(v, MEDIA_CONTENT)
  {
    AcceptedIff(v);
    if v.w.security.Ok? {
      MessagePasses(v);
    }
  }

  lemma MessagePasses(v: Visit)
    requires v.action.CreateMessageAction? && v.w.security.Ok?
    ensures (forall p :: p in ParamsOf(v.action, v.w.oracle) ==> Request.Passes(p, Whole(v))) <==>
              && SaysPosInt(v, ACCOUNT_ID) && SaysPosInt(v, CONVERSATION_ID)
              && SaysText(v, TEXT_CONTENT) && SaysMediaIfAny(v, MEDIA_CONTENT)
  {
    var o := v.w.oracle;
    var names := [ACCOUNT_ID, CONVERSATION_ID];
    var more := [Required(TEXT_CONTENT, IsNonEmptyString()), MediaList(MEDIA_CONTENT, o)];
    assert ParamsOf(CreateMessageAction, o) == Ids(names, o) + more && more[0] in more && more[1] in more;
    assert ACCOUNT_ID in names && CONVERSATION_ID in names;
    AllIdsPass(v, names);
    TextPasses(v, TEXT_CONTENT);
    MediaPasses(v, MEDIA_CONTENT);
  }
}
