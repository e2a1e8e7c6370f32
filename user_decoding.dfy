/**
 * What decoding a payload as BaseUser, Author, User or ExtendedUser promises:
 * required fields, defaults, the `avatar_url` alias, the ExtendedUser
 * extension and the flattened blacklist.
 */
module UserDecoding {
  import opened Json
  import opened Wrappers
  import opened Fields
  import opened Decoding
  import opened Users
  import Tags

  /*
   * Point facts about where a field sits in a tier. They are proved apart from
   * the lemmas below, which keep only the facts they use.
   */

  lemma RatingField()
    ensures BaseUserSchema()[3] == Plain("avatar_rating", KRating, Required)
    ensures |UserSchema()| == 32 && UserSchema()[3] == Plain("avatar_rating", KRating, Required)
    ensures |ExtendedUserSchema()| == 45 && ExtendedUserSchema()[3] == Plain("avatar_rating", KRating, Required)
  {
    BaseAt(3);
  }

  lemma AvatarField()
    ensures |UserSchema()| == 32 && UserSchema()[2] == Field("avatar", "avatar_url", KStr, Required, NoHook)
    ensures |ExtendedUserSchema()| == 45 && ExtendedUserSchema()[2] == UserSchema()[2]
  {
    BaseAt(2);
  }

  lemma SubscriptionsField()
    ensures |UserSchema()| == 32 && UserSchema()[27] == Plain("subscriptions", KStrList, DefaultEmptyList)
    ensures |ExtendedUserSchema()| == 45 && ExtendedUserSchema()[27] == UserSchema()[27]
  {
    MaybePresence();
    MaybeAt(8);
  }

  lemma TagsField()
    ensures |ExtendedUserSchema()| == 45
    ensures ExtendedUserSchema()[42] == Field("blacklisted_tags", "blacklisted_tags", KStrList, Required, FlattenGroups)
  {
    OwnPresence();
    OwnAt(10);
  }

  /** Author accepts exactly the payloads BaseUser accepts, with the same record or the same errors. */
  lemma AuthorIsBaseUser(obj: Object, fmt: Formats)
    ensures WellFormed(AuthorSchema()) && WellFormed(BaseUserSchema())
    ensures Decode(AuthorSchema(), obj, fmt) == Decode(BaseUserSchema(), obj, fmt)
  {
    BaseUserWellFormed();
  }

  /**
   * A BaseUser payload decodes exactly when its four keys hold an integer, two
   * strings and a valid rating token, and the record holds those values.
   */
  lemma BaseUserDecodes(obj: Object, fmt: Formats)
    ensures WellFormed(BaseUserSchema())
    ensures Decode(BaseUserSchema(), obj, fmt).Success? <==>
              && "id" in obj && obj["id"].JInt?
              && "name" in obj && obj["name"].JStr?
              && "avatar" in obj && obj["avatar"].JStr?
              && "avatar_rating" in obj && obj["avatar_rating"].JStr? && fmt.isRating(obj["avatar_rating"].s)
    ensures Decode(BaseUserSchema(), obj, fmt).Success? ==>
              Decode(BaseUserSchema(), obj, fmt).value ==
                map["id" := VInt(obj["id"].i), "name" := VStr(obj["name"].s),
                    "avatar" := VStr(obj["avatar"].s), "avatar_rating" := VRating(obj["avatar_rating"].s)]
  {
    BaseUserWellFormed();
    var s := BaseUserSchema();
    if Decode(s, obj, fmt).Success? {
      var r := Decode(s, obj, fmt).value;
      assert r.Keys == {"id", "name", "avatar", "avatar_rating"} by {
        assert Names(s) == {"id", "name", "avatar", "avatar_rating"};
      }
    }
  }

  /** An unknown rating token fails decoding whatever the other fields hold. */
  lemma UnknownRatingFails(obj: Object, fmt: Formats)
    requires "avatar_rating" in obj && obj["avatar_rating"].JStr? && !fmt.isRating(obj["avatar_rating"].s)
    ensures WellFormed(BaseUserSchema()) && WellFormed(UserSchema()) && WellFormed(ExtendedUserSchema())
    ensures Decode(BaseUserSchema(), obj, fmt).Failure? && FieldError("avatar_rating", UnknownEnumValue(obj["avatar_rating"].s)) in Decode(BaseUserSchema(), obj, fmt).error
    ensures Decode(UserSchema(), obj, fmt).Failure? && FieldError("avatar_rating", UnknownEnumValue(obj["avatar_rating"].s)) in Decode(UserSchema(), obj, fmt).error
    ensures Decode(ExtendedUserSchema(), obj, fmt).Failure? && FieldError("avatar_rating", UnknownEnumValue(obj["avatar_rating"].s)) in Decode(ExtendedUserSchema(), obj, fmt).error
  {
    BaseUserWellFormed();
    UserWellFormed();
    ExtendedUserWellFormed();
    RatingField();
    ErrorsHasEach(BaseUserSchema(), obj, fmt, 3);
    ErrorsHasEach(UserSchema(), obj, fmt, 3);
    ErrorsHasEach(ExtendedUserSchema(), obj, fmt, 3);
  }

  /** The User fields declared without a default, each read from its own name. */
  function UserRequiredNames(): seq<string>
  {
    ["id", "name", "avatar_rating"] + AlwaysNames()
  }

  /** The User fields that default to None: the optional ones and the removed ones. */
  function UserOptionalNames(): seq<string>
  {
    MaybeNames()[..8] + RemovedNames()
  }

  /** The position in User of a field declared without a default and read from its own name. */
  lemma UserRequiredIndex(name: string) returns (i: nat)
    requires name in UserRequiredNames()
    ensures i < 32 && |UserSchema()| == 32 && |ExtendedUserSchema()| == 45
    ensures UserSchema()[i].name == name && UserSchema()[i].key == name && UserSchema()[i].presence == Required
    ensures ExtendedUserSchema()[i] == UserSchema()[i]
  {
    if name in AlwaysNames() {
      AlwaysFacts();
      AlwaysPresence();
      var k := KeyedIndex(UserAlwaysPresent(), name);
      AlwaysAt(k);
      i := 4 + k;
    } else {
      i := if name == "id" then 0 else if name == "name" then 1 else 3;
      BaseAt(i);
    }
  }

  /** A User payload lacking a field declared without a default fails with an error naming it. */
  lemma UserMissingRequired(obj: Object, fmt: Formats, name: string)
    requires name in UserRequiredNames()
    requires name !in obj
    ensures WellFormed(UserSchema()) && WellFormed(ExtendedUserSchema())
    ensures Decode(UserSchema(), obj, fmt).Failure? && FieldError(name, Missing) in Decode(UserSchema(), obj, fmt).error
    ensures Decode(ExtendedUserSchema(), obj, fmt).Failure? && FieldError(name, Missing) in Decode(ExtendedUserSchema(), obj, fmt).error
  {
    var i := UserRequiredIndex(name);
    UserWellFormed();
    ExtendedUserWellFormed();
    MissingRequiredFails(UserSchema(), obj, fmt, i);
    MissingRequiredFails(ExtendedUserSchema(), obj, fmt, i);
  }

  /**
   * User reads `avatar` from `avatar_url`: a payload without `avatar_url` fails
   * with the error naming `avatar`.
   */
  lemma UserMissingAvatarUrl(obj: Object, fmt: Formats)
    requires "avatar_url" !in obj
    ensures WellFormed(UserSchema()) && WellFormed(ExtendedUserSchema())
    ensures Decode(UserSchema(), obj, fmt).Failure? && FieldError("avatar", Missing) in Decode(UserSchema(), obj, fmt).error
    ensures Decode(ExtendedUserSchema(), obj, fmt).Failure? && FieldError("avatar", Missing) in Decode(ExtendedUserSchema(), obj, fmt).error
  {
    AvatarField();
    UserWellFormed();
    ExtendedUserWellFormed();
    MissingRequiredFails(UserSchema(), obj, fmt, 2);
    MissingRequiredFails(ExtendedUserSchema(), obj, fmt, 2);
  }

  /** The position in User of a field that defaults to None. */
  lemma UserOptionalIndex(name: string) returns (i: nat)
    requires name in UserOptionalNames()
    ensures i < 32 && |UserSchema()| == 32 && |ExtendedUserSchema()| == 45
    ensures UserSchema()[i].name == name && UserSchema()[i].key == name && UserSchema()[i].presence == DefaultNone
    ensures ExtendedUserSchema()[i] == UserSchema()[i]
  {
    if name in RemovedNames() {
      RemovedFacts();
      RemovedPresence();
      var k := KeyedIndex(UserRemoved(), name);
      RemovedAt(k);
      i := 28 + k;
    } else {
      MaybeFacts();
      MaybePresence();
      var k := MaybeIndex(name);
      MaybeAt(k);
      i := 19 + k;
    }
  }

  lemma MaybeIndex(name: string) returns (k: nat)
    requires name in MaybeNames()[..8]
    ensures k < 8 && UserMaybeMissing()[k].name == name && UserMaybeMissing()[k].key == name
  {
    var j :| 0 <= j < 8 && MaybeNames()[..8][j] == name;
    MaybeFacts();
    assert NamesOf(UserMaybeMissing())[j] == name && KeysOf(UserMaybeMissing())[j] == name;
    k := j;
  }

  /**
   * An absent optional or removed field is never an error in User or
   * ExtendedUser, and a decoded record holds None for it.
   */
  lemma UserAbsentOptional(obj: Object, fmt: Formats, name: string)
    requires name in UserOptionalNames()
    requires name !in obj
    ensures WellFormed(UserSchema()) && WellFormed(ExtendedUserSchema())
    ensures forall e :: e in Errors(UserSchema(), obj, fmt) ==> e.field != name
    ensures forall e :: e in Errors(ExtendedUserSchema(), obj, fmt) ==> e.field != name
    ensures Decode(UserSchema(), obj, fmt).Success? ==>
              name in Decode(UserSchema(), obj, fmt).value && Decode(UserSchema(), obj, fmt).value[name] == VNone
    ensures Decode(ExtendedUserSchema(), obj, fmt).Success? ==>
              name in Decode(ExtendedUserSchema(), obj, fmt).value && Decode(ExtendedUserSchema(), obj, fmt).value[name] == VNone
  {
    var i := UserOptionalIndex(name);
    UserWellFormed();
    ExtendedUserWellFormed();
    AbsentIsDefaulted(UserSchema(), obj, fmt, i);
    AbsentIsDefaulted(ExtendedUserSchema(), obj, fmt, i);
  }

  /** An absent `subscriptions` is never an error in User, and a decoded record holds the empty list. */
  lemma UserAbsentSubscriptions(obj: Object, fmt: Formats)
    requires "subscriptions" !in obj
    ensures WellFormed(UserSchema())
    ensures forall e :: e in Errors(UserSchema(), obj, fmt) ==> e.field != "subscriptions"
    ensures Decode(UserSchema(), obj, fmt).Success? ==>
              "subscriptions" in Decode(UserSchema(), obj, fmt).value
              && Decode(UserSchema(), obj, fmt).value["subscriptions"] == VStrList([])
  {
    SubscriptionsField();
    UserWellFormed();
    AbsentIsDefaulted(UserSchema(), obj, fmt, 27);
  }

  /** An absent `subscriptions` is never an error in ExtendedUser, and a decoded record holds the empty list. */
  lemma ExtendedUserAbsentSubscriptions(obj: Object, fmt: Formats)
    requires "subscriptions" !in obj
    ensures WellFormed(ExtendedUserSchema())
    ensures forall e :: e in Errors(ExtendedUserSchema(), obj, fmt) ==> e.field != "subscriptions"
    ensures Decode(ExtendedUserSchema(), obj, fmt).Success? ==>
              "subscriptions" in Decode(ExtendedUserSchema(), obj, fmt).value
              && Decode(ExtendedUserSchema(), obj, fmt).value["subscriptions"] == VStrList([])
  {
    SubscriptionsField();
    ExtendedUserWellFormed();
    AbsentIsDefaulted(ExtendedUserSchema(), obj, fmt, 27);
  }

  /**
   * Dropping an optional key from a User payload that decodes still decodes, to
   * the same record with that field set to None.
   */
  lemma UserOptionalNeverRequired(obj: Object, fmt: Formats, name: string)
    requires name in UserOptionalNames()
    requires WellFormed(UserSchema()) && Decode(UserSchema(), obj, fmt).Success?
    ensures Decode(UserSchema(), obj - {name}, fmt).Success?
              && Decode(UserSchema(), obj - {name}, fmt).value == Decode(UserSchema(), obj, fmt).value[name := VNone]
  {
    var i := UserOptionalIndex(name);
    RemoveDefaulted(UserSchema(), obj, fmt, i);
  }

  /** A User record holds `avatar` as read from `avatar_url`. */
  lemma UserAvatarFromUrl(obj: Object, fmt: Formats)
    ensures WellFormed(UserSchema())
    ensures Decode(UserSchema(), obj, fmt).Success? ==>
              "avatar_url" in obj && obj["avatar_url"].JStr? && "avatar" in Decode(UserSchema(), obj, fmt).value
              && Decode(UserSchema(), obj, fmt).value["avatar"] == VStr(obj["avatar_url"].s)
  {
    AvatarField();
    UserWellFormed();
    if Decode(UserSchema(), obj, fmt).Success? {
      DecodedString(UserSchema(), obj, fmt, 2);
    }
  }

  /** An ExtendedUser record holds `avatar` as read from `avatar_url`. */
  lemma ExtendedUserAvatarFromUrl(obj: Object, fmt: Formats)
    ensures WellFormed(ExtendedUserSchema())
    ensures Decode(ExtendedUserSchema(), obj, fmt).Success? ==>
              "avatar_url" in obj && obj["avatar_url"].JStr? && "avatar" in Decode(ExtendedUserSchema(), obj, fmt).value
              && Decode(ExtendedUserSchema(), obj, fmt).value["avatar"] == VStr(obj["avatar_url"].s)
  {
    AvatarField();
    ExtendedUserWellFormed();
    if Decode(ExtendedUserSchema(), obj, fmt).Success? {
      DecodedString(ExtendedUserSchema(), obj, fmt, 2);
    }
  }

  /** A BaseUser (and so Author) record holds `avatar` as read from `avatar`. */
  lemma BaseUserAvatarFromAvatar(obj: Object, fmt: Formats)
    ensures WellFormed(BaseUserSchema())
    ensures Decode(BaseUserSchema(), obj, fmt).Success? ==>
              "avatar" in obj && obj["avatar"].JStr? && "avatar" in Decode(BaseUserSchema(), obj, fmt).value
              && Decode(BaseUserSchema(), obj, fmt).value["avatar"] == VStr(obj["avatar"].s)
  {
    assert BaseUserSchema()[2] == Field("avatar", "avatar", KStr, Required, NoHook);
    BaseUserWellFormed();
  }

  /**
   * ExtendedUser decodes exactly when the payload decodes as User and its own
   * fields decode, and its record is the User record plus its own fields.
   */
  lemma ExtendedUserExtendsUser(obj: Object, fmt: Formats)
    ensures WellFormed(UserSchema()) && WellFormed(ExtendedUserOwn()) && WellFormed(ExtendedUserSchema())
    ensures Decode(ExtendedUserSchema(), obj, fmt).Success? <==>
              Decode(UserSchema(), obj, fmt).Success? && Decode(ExtendedUserOwn(), obj, fmt).Success?
    ensures Decode(ExtendedUserSchema(), obj, fmt).Success? ==>
              Decode(ExtendedUserSchema(), obj, fmt).value ==
                Decode(UserSchema(), obj, fmt).value + Decode(ExtendedUserOwn(), obj, fmt).value
  {
    UserWellFormed();
    ExtendedUserWellFormed();
    DecodeAppend(UserSchema(), ExtendedUserOwn(), obj, fmt);
  }

  /** The position in ExtendedUser of one of its own fields. */
  lemma OwnIndex(name: string) returns (i: nat)
    requires name in OwnNames()
    ensures i < 45 && |ExtendedUserSchema()| == 45
    ensures ExtendedUserSchema()[i].name == name && ExtendedUserSchema()[i].key == name
    ensures ExtendedUserSchema()[i].presence == Required
  {
    OwnFacts();
    OwnPresence();
    var k := KeyedIndex(ExtendedUserOwn(), name);
    OwnAt(k);
    i := 32 + k;
  }

  /** An ExtendedUser payload lacking one of its own fields fails with an error naming it. */
  lemma ExtendedUserMissingOwn(obj: Object, fmt: Formats, name: string)
    requires name in OwnNames()
    requires name !in obj
    ensures WellFormed(ExtendedUserSchema())
    ensures Decode(ExtendedUserSchema(), obj, fmt).Failure? && FieldError(name, Missing) in Decode(ExtendedUserSchema(), obj, fmt).error
  {
    var i := OwnIndex(name);
    ExtendedUserWellFormed();
    MissingRequiredFails(ExtendedUserSchema(), obj, fmt, i);
  }

  /**
   * A payload that is a valid User is an ExtendedUser exactly when ExtendedUser's
   * own fields decode, and otherwise its errors are exactly theirs.
   */
  lemma ExtendedUserOverValidUser(obj: Object, fmt: Formats)
    requires WellFormed(UserSchema()) && Decode(UserSchema(), obj, fmt).Success?
    ensures WellFormed(ExtendedUserOwn()) && WellFormed(ExtendedUserSchema())
    ensures Decode(ExtendedUserSchema(), obj, fmt).Failure? <==> Decode(ExtendedUserOwn(), obj, fmt).Failure?
    ensures Decode(ExtendedUserSchema(), obj, fmt).Failure? ==>
              Decode(ExtendedUserSchema(), obj, fmt).error == Decode(ExtendedUserOwn(), obj, fmt).error
  {
    ExtendedUserWellFormed();
    ExtensionErrors(UserSchema(), ExtendedUserOwn(), obj, fmt);
  }

  /**
   * A valid User payload with no `email` is not an ExtendedUser: it fails with
   * the error naming `email`, and its errors are exactly those of
   * ExtendedUser's own fields.
   */
  lemma ValidUserWithoutEmail(obj: Object, fmt: Formats)
    requires WellFormed(UserSchema()) && Decode(UserSchema(), obj, fmt).Success?
    requires "email" !in obj
    ensures WellFormed(ExtendedUserOwn()) && WellFormed(ExtendedUserSchema())
    ensures Decode(ExtendedUserSchema(), obj, fmt).Failure?
              && FieldError("email", Missing) in Decode(ExtendedUserSchema(), obj, fmt).error
    ensures Decode(ExtendedUserOwn(), obj, fmt).Failure?
              && Decode(ExtendedUserSchema(), obj, fmt).Failure?
              && Decode(ExtendedUserSchema(), obj, fmt).error == Decode(ExtendedUserOwn(), obj, fmt).error
  {
    ExtendedUserMissingOwn(obj, fmt, "email");
    ExtendedUserOverValidUser(obj, fmt);
  }

  /**
   * The blacklist is flattened before it is checked: well-shaped groups decode
   * to the first tag of each group, and an empty group makes decoding fail.
   */
  lemma ExtendedUserFlattensTags(obj: Object, fmt: Formats, groups: seq<seq<string>>)
    requires "blacklisted_tags" in obj && obj["blacklisted_tags"] == Tags.GroupsJson(groups)
    ensures WellFormed(ExtendedUserSchema())
    ensures (forall i :: 0 <= i < |groups| ==> |groups[i]| > 0) ==>
              forall e :: e in Errors(ExtendedUserSchema(), obj, fmt) ==> e.field != "blacklisted_tags"
    ensures (forall i :: 0 <= i < |groups| ==> |groups[i]| > 0) && Decode(ExtendedUserSchema(), obj, fmt).Success? ==>
              && "blacklisted_tags" in Decode(ExtendedUserSchema(), obj, fmt).value
              && Decode(ExtendedUserSchema(), obj, fmt).value["blacklisted_tags"] == VStrList(Tags.Flatten(groups))
    ensures (exists i :: 0 <= i < |groups| && groups[i] == []) ==>
              && Decode(ExtendedUserSchema(), obj, fmt).Failure?
              && exists i :: 0 <= i < |groups| && groups[i] == []
                             && FieldError("blacklisted_tags", TransformFailure(Tags.EmptyGroup(i)))
                                  in Decode(ExtendedUserSchema(), obj, fmt).error
  {
    TagsField();
    ExtendedUserWellFormed();
    FlattenedField(ExtendedUserSchema(), obj, fmt, 42, groups);
  }

  /**
   * A blacklist sent back flat, as a decoded ExtendedUser writes it out, is not
   * read back: every tag is cut down to its first character, and an empty tag
   * makes decoding fail.
   */
  lemma ExtendedUserTruncatesFlatTags(obj: Object, fmt: Formats, tags: seq<string>)
    requires "blacklisted_tags" in obj && obj["blacklisted_tags"] == Wire(VStrList(tags))
    ensures WellFormed(ExtendedUserSchema())
    ensures (forall i :: 0 <= i < |tags| ==> |tags[i]| > 0) ==>
              forall e :: e in Errors(ExtendedUserSchema(), obj, fmt) ==> e.field != "blacklisted_tags"
    ensures (forall i :: 0 <= i < |tags| ==> |tags[i]| > 0) && Decode(ExtendedUserSchema(), obj, fmt).Success? ==>
              && "blacklisted_tags" in Decode(ExtendedUserSchema(), obj, fmt).value
              && Decode(ExtendedUserSchema(), obj, fmt).value["blacklisted_tags"] == VStrList(Tags.Initials(tags))
    ensures (exists i :: 0 <= i < |tags| && tags[i] == []) ==>
              && Decode(ExtendedUserSchema(), obj, fmt).Failure?
              && exists i :: 0 <= i < |tags| && tags[i] == []
                             && FieldError("blacklisted_tags", TransformFailure(Tags.EmptyGroup(i)))
                                  in Decode(ExtendedUserSchema(), obj, fmt).error
  {
    TagsField();
    ExtendedUserWellFormed();
    FlatTagsField(ExtendedUserSchema(), obj, fmt, 42, tags);
  }

  /** Every User record is decoded back from its wire form. */
  lemma UserRoundTrip(rec: Record, fmt: Formats)
    requires WellFormed(UserSchema()) && Conforms(UserSchema(), rec, fmt)
    ensures Decode(UserSchema(), Encode(UserSchema(), rec), fmt) == Success(rec)
  {
    TiersHookOnLists();
    RoundTrip(UserSchema(), rec, fmt);
  }

  /** Every ExtendedUser record is decoded back from its wire form, the blacklist as one-tag groups. */
  lemma ExtendedUserRoundTrip(rec: Record, fmt: Formats)
    requires WellFormed(ExtendedUserSchema()) && Conforms(ExtendedUserSchema(), rec, fmt)
    ensures Decode(ExtendedUserSchema(), Encode(ExtendedUserSchema(), rec), fmt) == Success(rec)
  {
    TiersHookOnLists();
    RoundTrip(ExtendedUserSchema(), rec, fmt);
  }
}
