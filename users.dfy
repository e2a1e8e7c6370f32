/**
 * The three profile tiers of `sankaku.models.users`: BaseUser (and Author, which
 * declares nothing of its own), User and ExtendedUser, each extending its
 * parent's field list, with proofs that no two fields of a tier share a name or a key.
 */
module Users {
  import opened Json
  import opened Wrappers
  import opened Fields
  import opened Decoding
  import Tags

  /** BaseUser: the minimum profile. */
  function BaseUserSchema(): Schema
  {
    [ Plain("id", KInt, Required),
      Plain("name", KStr, Required),
      Plain("avatar", KStr, Required),
      Plain("avatar_rating", KRating, Required) ]
  }

  /** Author declares no field of its own. */
  function AuthorSchema(): Schema
  {
    BaseUserSchema()
  }

  /** The schema with the field `name` read from wire key `key`; position, kind and default are kept. */
  function WithKey(s: Schema, name: string, key: string): (r: Schema)
    ensures |r| == |s|
    ensures forall i :: 0 <= i < |s| ==>
              r[i] == if s[i].name == name then s[i].(key := key) else s[i]
  {
    seq(|s|, i requires 0 <= i < |s| => if s[i].name == name then s[i].(key := key) else s[i])
  }

  /** User fields that every server response carries. */
  function UserAlwaysPresent(): Schema
  {
    [ Plain("level", KInt, Required),
      Plain("upload_limit", KInt, Required),
      Plain("created_at", KDateTime, Required),
      Plain("favs_are_private", KBool, Required),
      Plain("post_upload_count", KInt, Required),
      Plain("pool_upload_count", KInt, Required),
      Plain("comment_count", KInt, Required),
      Plain("post_update_count", KInt, Required),
      Plain("note_update_count", KInt, Required),
      Plain("wiki_update_count", KInt, Required),
      Plain("forum_post_count", KInt, Required),
      Plain("pool_update_count", KInt, Required),
      Plain("series_update_count", KInt, Required),
      Plain("tag_update_count", KInt, Required),
      Plain("artist_update_count", KInt, Required) ]
  }

  /** User fields some server responses leave out. */
  function UserMaybeMissing(): Schema
  {
    [ Plain("last_logged_in_at", KDateTime, DefaultNone),
      Plain("favorite_count", KInt, DefaultNone),
      Plain("post_favorite_count", KInt, DefaultNone),
      Plain("pool_favorite_count", KInt, DefaultNone),
      Plain("vote_count", KInt, DefaultNone),
      Plain("post_vote_count", KInt, DefaultNone),
      Plain("pool_vote_count", KInt, DefaultNone),
      Plain("recommended_posts_for_user", KInt, DefaultNone),
      Plain("subscriptions", KStrList, DefaultEmptyList) ]
  }

  /** User fields the server no longer sends, kept with a None default. */
  function UserRemoved(): Schema
  {
    [ Plain("show_popup_version", KInt, DefaultNone),
      Plain("credits", KInt, DefaultNone),
      Plain("credits_subs", KInt, DefaultNone),
      Plain("is_ai_beta", KBool, DefaultNone) ]
  }

  /** BaseUser's part of User: `avatar` read from `avatar_url`. */
  function UserBase(): Schema
  {
    WithKey(BaseUserSchema(), "avatar", "avatar_url")
  }

  /** User: BaseUser with `avatar` read from `avatar_url`, then its own fields. */
  function UserSchema(): Schema
  {
    UserBase() + UserAlwaysPresent() + UserMaybeMissing() + UserRemoved()
  }

  /** The fields ExtendedUser adds; all required. */
  function ExtendedUserOwn(): Schema
  {
    [ Plain("email", KStr, Required),
      Plain("hide_ads", KBool, Required),
      Plain("subscription_level", KInt, Required),
      Plain("filter_content", KBool, Required),
      Plain("has_mail", KBool, Required),
      Plain("receive_dmails", KBool, Required),
      Plain("email_verification_status", KStr, Required),
      Plain("is_verified", KBool, Required),
      Plain("verifications_count", KInt, Required),
      Plain("blacklist_is_hidden", KBool, Required),
      Field("blacklisted_tags", "blacklisted_tags", KStrList, Required, FlattenGroups),
      Plain("blacklisted", KStrList, Required),
      Plain("mfa_method", KInt, Required) ]
  }

  /** ExtendedUser: the profile of the logged-in user. */
  function ExtendedUserSchema(): Schema
  {
    UserSchema() + ExtendedUserOwn()
  }

  /*
   * Well-formedness of the tiers, proved group by group: the names and keys of
   * each group are read off as literal lists, and literal lists are compared
   * only within a group and between two groups at a time.
   */

  /** The canonical names of a field list, in order. */
  function NamesOf(s: Schema): (names: seq<string>)
    ensures |names| == |s|
    ensures forall i :: 0 <= i < |s| ==> names[i] == s[i].name
  {
    seq(|s|, i requires 0 <= i < |s| => s[i].name)
  }

  /** The wire keys of a field list, in order. */
  function KeysOf(s: Schema): (keys: seq<string>)
    ensures |keys| == |s|
    ensures forall i :: 0 <= i < |s| ==> keys[i] == s[i].key
  {
    seq(|s|, i requires 0 <= i < |s| => s[i].key)
  }

  /** The declared types of a field list, in order. */
  function KindsOf(s: Schema): (kinds: seq<Kind>)
    ensures |kinds| == |s|
    ensures forall i :: 0 <= i < |s| ==> kinds[i] == s[i].kind
  {
    seq(|s|, i requires 0 <= i < |s| => s[i].kind)
  }

  /** Where a name sits in a field list read from its own names. */
  lemma KeyedIndex(s: Schema, name: string) returns (i: nat)
    requires name in NamesOf(s) && KeysOf(s) == NamesOf(s)
    ensures i < |s| && s[i].name == name && s[i].key == name
  {
    i :| 0 <= i < |s| && NamesOf(s)[i] == name;
    assert KeysOf(s)[i] == s[i].key;
  }

  predicate Distinct(xs: seq<string>)
  {
    forall i, j :: 0 <= i < j < |xs| ==> xs[i] != xs[j]
  }

  predicate Apart(xs: seq<string>, ys: seq<string>)
  {
    forall i, j :: 0 <= i < |xs| && 0 <= j < |ys| ==> xs[i] != ys[j]
  }

  lemma WellFormedByLists(s: Schema)
    requires Distinct(NamesOf(s)) && Distinct(KeysOf(s))
    ensures WellFormed(s)
  {
    forall i, j | 0 <= i < j < |s| ensures s[i].name != s[j].name && s[i].key != s[j].key {
      assert NamesOf(s)[i] != NamesOf(s)[j];
      assert KeysOf(s)[i] != KeysOf(s)[j];
    }
  }

  lemma DisjointByLists(a: Schema, b: Schema)
    requires Apart(NamesOf(a), NamesOf(b)) && Apart(KeysOf(a), KeysOf(b))
    ensures Disjoint(a, b)
  {
    forall i, j | 0 <= i < |a| && 0 <= j < |b| ensures a[i].name != b[j].name && a[i].key != b[j].key {
      assert NamesOf(a)[i] != NamesOf(b)[j];
      assert KeysOf(a)[i] != KeysOf(b)[j];
    }
  }

  lemma HooksAppend(a: Schema, b: Schema)
    requires HooksOnLists(a) && HooksOnLists(b)
    ensures HooksOnLists(a + b)
  {
    forall i | 0 <= i < |a + b| && (a + b)[i].hook == FlattenGroups
      ensures (a + b)[i].kind == KStrList && (a + b)[i].presence != DefaultNone
    {
      if i < |a| {
        assert (a + b)[i] == a[i];
      } else {
        assert (a + b)[i] == b[i - |a|];
      }
    }
  }

  /*
   * The names of each group once more, as bare literal lists. They exist only to
   * keep the distinctness proofs cheap: the *Facts lemmas tie each one to its
   * schema, and the comparisons are then made between these lists alone.
   */

  function BaseNames(): seq<string> { ["id", "name", "avatar", "avatar_rating"] }

  function UserBaseKeys(): seq<string> { ["id", "name", "avatar_url", "avatar_rating"] }

  function AlwaysNames(): seq<string>
  {
    ["level", "upload_limit", "created_at", "favs_are_private", "post_upload_count", "pool_upload_count",
     "comment_count", "post_update_count", "note_update_count", "wiki_update_count", "forum_post_count",
     "pool_update_count", "series_update_count", "tag_update_count", "artist_update_count"]
  }

  function MaybeNames(): seq<string>
  {
    ["last_logged_in_at", "favorite_count", "post_favorite_count", "pool_favorite_count", "vote_count",
     "post_vote_count", "pool_vote_count", "recommended_posts_for_user", "subscriptions"]
  }

  function RemovedNames(): seq<string> { ["show_popup_version", "credits", "credits_subs", "is_ai_beta"] }

  function OwnNames(): seq<string>
  {
    ["email", "hide_ads", "subscription_level", "filter_content", "has_mail", "receive_dmails",
     "email_verification_status", "is_verified", "verifications_count", "blacklist_is_hidden",
     "blacklisted_tags", "blacklisted", "mfa_method"]
  }

  /* What each group declares, read off its literal definition. */

  lemma BaseFacts()
    ensures NamesOf(BaseUserSchema()) == BaseNames() && KeysOf(BaseUserSchema()) == BaseNames()
    ensures NamesOf(UserBase()) == BaseNames() && KeysOf(UserBase()) == UserBaseKeys()
    ensures HooksOnLists(UserBase())
  {
  }

  lemma AlwaysFacts()
    ensures |UserAlwaysPresent()| == 15
    ensures NamesOf(UserAlwaysPresent()) == AlwaysNames() && KeysOf(UserAlwaysPresent()) == AlwaysNames()
  {
  }

  lemma AlwaysPresence()
    ensures |UserAlwaysPresent()| == 15
    ensures forall k :: 0 <= k < 15 ==> UserAlwaysPresent()[k].presence == Required
    ensures HooksOnLists(UserAlwaysPresent())
  {
  }

  lemma MaybeFacts()
    ensures |UserMaybeMissing()| == 9
    ensures NamesOf(UserMaybeMissing()) == MaybeNames() && KeysOf(UserMaybeMissing()) == MaybeNames()
  {
  }

  lemma MaybePresence()
    ensures |UserMaybeMissing()| == 9
    ensures forall k :: 0 <= k < 8 ==> UserMaybeMissing()[k].presence == DefaultNone
    ensures UserMaybeMissing()[8] == Plain("subscriptions", KStrList, DefaultEmptyList)
    ensures HooksOnLists(UserMaybeMissing())
  {
  }

  lemma RemovedFacts()
    ensures |UserRemoved()| == 4
    ensures NamesOf(UserRemoved()) == RemovedNames() && KeysOf(UserRemoved()) == RemovedNames()
  {
  }

  lemma RemovedPresence()
    ensures |UserRemoved()| == 4
    ensures forall k :: 0 <= k < 4 ==> UserRemoved()[k].presence == DefaultNone
    ensures HooksOnLists(UserRemoved())
  {
  }

  lemma OwnFacts()
    ensures |ExtendedUserOwn()| == 13
    ensures NamesOf(ExtendedUserOwn()) == OwnNames() && KeysOf(ExtendedUserOwn()) == OwnNames()
  {
  }

  lemma OwnPresence()
    ensures |ExtendedUserOwn()| == 13
    ensures forall k :: 0 <= k < 13 ==> ExtendedUserOwn()[k].presence == Required
    ensures ExtendedUserOwn()[10] == Field("blacklisted_tags", "blacklisted_tags", KStrList, Required, FlattenGroups)
    ensures HooksOnLists(ExtendedUserOwn())
  {
  }

  /* The declared type of every field of each group, and which field has a hook. */

  lemma BaseTypes()
    ensures |BaseUserSchema()| == 4 && |UserBase()| == 4
    ensures KindsOf(BaseUserSchema()) == [KInt, KStr, KStr, KRating] && KindsOf(UserBase()) == KindsOf(BaseUserSchema())
    ensures forall k :: 0 <= k < 4 ==> BaseUserSchema()[k].presence == Required && BaseUserSchema()[k].hook == NoHook
    ensures forall k :: 0 <= k < 4 ==> UserBase()[k].presence == Required && UserBase()[k].hook == NoHook
  {
  }

  lemma AlwaysTypes()
    ensures |UserAlwaysPresent()| == 15
    ensures KindsOf(UserAlwaysPresent()) ==
              [KInt, KInt, KDateTime, KBool, KInt, KInt, KInt, KInt, KInt, KInt, KInt, KInt, KInt, KInt, KInt]
    ensures forall k :: 0 <= k < 15 ==> UserAlwaysPresent()[k].hook == NoHook
  {
  }

  lemma MaybeTypes()
    ensures |UserMaybeMissing()| == 9
    ensures KindsOf(UserMaybeMissing()) == [KDateTime, KInt, KInt, KInt, KInt, KInt, KInt, KInt, KStrList]
    ensures forall k :: 0 <= k < 9 ==> UserMaybeMissing()[k].hook == NoHook
  {
  }

  lemma RemovedTypes()
    ensures |UserRemoved()| == 4
    ensures KindsOf(UserRemoved()) == [KInt, KInt, KInt, KBool]
    ensures forall k :: 0 <= k < 4 ==> UserRemoved()[k].hook == NoHook
  {
  }

  lemma OwnTypes()
    ensures |ExtendedUserOwn()| == 13
    ensures KindsOf(ExtendedUserOwn()) ==
              [KStr, KBool, KInt, KBool, KBool, KBool, KStr, KBool, KInt, KBool, KStrList, KStrList, KInt]
    ensures forall k :: 0 <= k < 13 ==> (ExtendedUserOwn()[k].hook == FlattenGroups <==> k == 10)
  {
  }

  /* No name repeats within a group, and no two groups share a name or key. */

  lemma ListsDistinct()
    ensures Distinct(BaseNames()) && Distinct(UserBaseKeys()) && Distinct(RemovedNames())
  {
  }

  lemma AlwaysDistinct()
    ensures Distinct(AlwaysNames())
  {
  }

  lemma MaybeDistinct()
    ensures Distinct(MaybeNames())
  {
  }

  lemma OwnDistinct()
    ensures Distinct(OwnNames())
  {
  }

  lemma BaseListsApart()
    ensures Apart(BaseNames(), AlwaysNames()) && Apart(UserBaseKeys(), AlwaysNames())
    ensures Apart(BaseNames(), MaybeNames()) && Apart(UserBaseKeys(), MaybeNames())
    ensures Apart(BaseNames(), RemovedNames()) && Apart(UserBaseKeys(), RemovedNames())
    ensures Apart(BaseNames(), OwnNames()) && Apart(UserBaseKeys(), OwnNames())
  {
  }

  lemma UserListsApart()
    ensures Apart(AlwaysNames(), MaybeNames()) && Apart(AlwaysNames(), RemovedNames())
    ensures Apart(MaybeNames(), RemovedNames())
  {
  }

  lemma AlwaysOwnListsApart()
    ensures Apart(AlwaysNames(), OwnNames())
  {
  }

  lemma OwnListsApart()
    ensures Apart(MaybeNames(), OwnNames()) && Apart(RemovedNames(), OwnNames())
  {
  }

  lemma BaseGroup()
    ensures WellFormed(BaseUserSchema()) && WellFormed(UserBase())
  {
    BaseFacts();
    ListsDistinct();
    WellFormedByLists(BaseUserSchema());
    WellFormedByLists(UserBase());
  }

  lemma AlwaysGroup()
    ensures WellFormed(UserAlwaysPresent())
  {
    AlwaysFacts();
    AlwaysDistinct();
    WellFormedByLists(UserAlwaysPresent());
  }

  lemma MaybeGroup()
    ensures WellFormed(UserMaybeMissing())
  {
    MaybeFacts();
    MaybeDistinct();
    WellFormedByLists(UserMaybeMissing());
  }

  lemma RemovedGroup()
    ensures WellFormed(UserRemoved())
  {
    RemovedFacts();
    ListsDistinct();
    WellFormedByLists(UserRemoved());
  }

  lemma OwnGroup()
    ensures WellFormed(ExtendedUserOwn())
  {
    OwnFacts();
    OwnDistinct();
    WellFormedByLists(ExtendedUserOwn());
  }

  lemma BaseApart()
    ensures Disjoint(UserBase(), UserAlwaysPresent()) && Disjoint(UserBase(), UserMaybeMissing())
  {
    BaseFacts();
    AlwaysFacts();
    MaybeFacts();
    BaseListsApart();
    DisjointByLists(UserBase(), UserAlwaysPresent());
    DisjointByLists(UserBase(), UserMaybeMissing());
  }

  lemma BaseApartLater()
    ensures Disjoint(UserBase(), UserRemoved()) && Disjoint(UserBase(), ExtendedUserOwn())
  {
    BaseFacts();
    RemovedFacts();
    OwnFacts();
    BaseListsApart();
    DisjointByLists(UserBase(), UserRemoved());
    DisjointByLists(UserBase(), ExtendedUserOwn());
  }

  lemma AlwaysApart()
    ensures Disjoint(UserAlwaysPresent(), UserMaybeMissing()) && Disjoint(UserAlwaysPresent(), UserRemoved())
  {
    AlwaysFacts();
    MaybeFacts();
    RemovedFacts();
    UserListsApart();
    DisjointByLists(UserAlwaysPresent(), UserMaybeMissing());
    DisjointByLists(UserAlwaysPresent(), UserRemoved());
  }

  lemma MaybeRemovedApart()
    ensures Disjoint(UserMaybeMissing(), UserRemoved())
  {
    MaybeFacts();
    RemovedFacts();
    UserListsApart();
    DisjointByLists(UserMaybeMissing(), UserRemoved());
  }

  lemma AlwaysOwnApart()
    ensures Disjoint(UserAlwaysPresent(), ExtendedUserOwn())
  {
    AlwaysFacts();
    OwnFacts();
    AlwaysOwnListsApart();
    DisjointByLists(UserAlwaysPresent(), ExtendedUserOwn());
  }

  lemma OwnApart()
    ensures Disjoint(UserMaybeMissing(), ExtendedUserOwn()) && Disjoint(UserRemoved(), ExtendedUserOwn())
  {
    MaybeFacts();
    RemovedFacts();
    OwnFacts();
    OwnListsApart();
    DisjointByLists(UserMaybeMissing(), ExtendedUserOwn());
    DisjointByLists(UserRemoved(), ExtendedUserOwn());
  }

  /** No two fields of BaseUser (and so of Author) share a canonical name or a wire key. */
  lemma BaseUserWellFormed()
    ensures WellFormed(BaseUserSchema()) && WellFormed(AuthorSchema())
  {
    BaseGroup();
  }

  /** No two fields of User share a canonical name or a wire key. */
  lemma UserWellFormed()
    ensures WellFormed(UserSchema())
  {
    var base, always, maybe, removed := UserBase(), UserAlwaysPresent(), UserMaybeMissing(), UserRemoved();
    BaseGroup();
    AlwaysGroup();
    MaybeGroup();
    RemovedGroup();
    BaseApart();
    BaseApartLater();
    AlwaysApart();
    MaybeRemovedApart();
    WellFormedAppend(base, always);
    DisjointAppend(base, always, maybe);
    WellFormedAppend(base + always, maybe);
    DisjointAppend(base, always, removed);
    DisjointAppend(base + always, maybe, removed);
    WellFormedAppend(base + always + maybe, removed);
  }

  /** User and ExtendedUser's own fields share no name or key, so ExtendedUser is well formed. */
  lemma ExtendedUserWellFormed()
    ensures WellFormed(ExtendedUserOwn()) && Disjoint(UserSchema(), ExtendedUserOwn())
    ensures WellFormed(ExtendedUserSchema())
  {
    var base, always, maybe, removed, own :=
      UserBase(), UserAlwaysPresent(), UserMaybeMissing(), UserRemoved(), ExtendedUserOwn();
    UserWellFormed();
    OwnGroup();
    BaseApartLater();
    AlwaysOwnApart();
    OwnApart();
    DisjointAppend(base, always, own);
    DisjointAppend(base + always, maybe, own);
    DisjointAppend(base + always + maybe, removed, own);
    WellFormedAppend(UserSchema(), own);
  }

  /* Where each group sits inside the tiers. */

  lemma UserLayout()
    ensures |UserSchema()| == 32 && |ExtendedUserSchema()| == 45
    ensures forall k :: 0 <= k < 4 ==> UserSchema()[k] == UserBase()[k]
    ensures forall k :: 0 <= k < 15 ==> UserSchema()[4 + k] == UserAlwaysPresent()[k]
    ensures forall k :: 0 <= k < 9 ==> UserSchema()[19 + k] == UserMaybeMissing()[k]
    ensures forall k :: 0 <= k < 4 ==> UserSchema()[28 + k] == UserRemoved()[k]
    ensures forall k :: 0 <= k < 32 ==> ExtendedUserSchema()[k] == UserSchema()[k]
    ensures forall k :: 0 <= k < 13 ==> ExtendedUserSchema()[32 + k] == ExtendedUserOwn()[k]
  {
  }

  lemma BaseAt(k: nat)
    requires k < 4
    ensures |UserSchema()| == 32 && |ExtendedUserSchema()| == 45
    ensures UserSchema()[k] == UserBase()[k] && ExtendedUserSchema()[k] == UserSchema()[k]
  {
    UserLayout();
  }

  lemma AlwaysAt(k: nat)
    requires k < 15
    ensures |UserSchema()| == 32 && |ExtendedUserSchema()| == 45
    ensures UserSchema()[4 + k] == UserAlwaysPresent()[k] && ExtendedUserSchema()[4 + k] == UserSchema()[4 + k]
  {
    UserLayout();
  }

  lemma MaybeAt(k: nat)
    requires k < 9
    ensures |UserSchema()| == 32 && |ExtendedUserSchema()| == 45
    ensures UserSchema()[19 + k] == UserMaybeMissing()[k] && ExtendedUserSchema()[19 + k] == UserSchema()[19 + k]
  {
    UserLayout();
  }

  lemma RemovedAt(k: nat)
    requires k < 4
    ensures |UserSchema()| == 32 && |ExtendedUserSchema()| == 45
    ensures UserSchema()[28 + k] == UserRemoved()[k] && ExtendedUserSchema()[28 + k] == UserSchema()[28 + k]
  {
    UserLayout();
  }

  lemma OwnAt(k: nat)
    requires k < 13
    ensures |ExtendedUserSchema()| == 45
    ensures ExtendedUserSchema()[32 + k] == ExtendedUserOwn()[k]
  {
    UserLayout();
  }

  /** Only `blacklisted_tags` has a hook, and it is a required list of strings. */
  lemma TiersHookOnLists()
    ensures HooksOnLists(UserSchema()) && HooksOnLists(ExtendedUserSchema())
  {
    BaseFacts();
    AlwaysPresence();
    MaybePresence();
    RemovedPresence();
    OwnPresence();
    HooksAppend(UserBase(), UserAlwaysPresent());
    HooksAppend(UserBase() + UserAlwaysPresent(), UserMaybeMissing());
    HooksAppend(UserBase() + UserAlwaysPresent() + UserMaybeMissing(), UserRemoved());
    HooksAppend(UserSchema(), ExtendedUserOwn());
  }
}
