/**
 * The data classes of the social-network application and the logic they carry:
 * the projection of a model to a dictionary (`Model`), the viewer-relative
 * reading of a stored follow request (`Follower`) and the profile annotated
 * with that reading (`User`).
 *
 * A follow request is stored once, as one directed record from the user who
 * sent it (`follower_user_id`) to the user it was sent to
 * (`followed_user_id`); whether it is "sent", "received" or a friendship
 * depends on who is looking.
 */
module Models {
  import opened Wrappers
  import opened Dicts
  import Stamps

  // ---------------------------------------------------------------------------
  // Model: classes, their fields and their related (joined) properties
  // ---------------------------------------------------------------------------

  /** The concrete subclasses of `Model`. */
  datatype ModelClass = FollowerModel | UserModel | PostModel | FeedModel

  /** The class's own field annotations, in declaration order. */
  function Annotations(c: ModelClass): (names: seq<string>)
  {
    match c
    case FollowerModel => ["id", "follower_user_id", "followed_user_id", "status"]
    case UserModel => ["id", "name", "last_name", "email", "password", "birth_date",
                       "age", "gender", "interests", "city", "followers"]
    case PostModel => ["id", "user_id", "user", "data", "date_create"]
    case FeedModel => ["id", "user_id", "post_id", "post", "date_create"]
  }

  /** `get_related_properties`: the fields that hold joined models. `Follower` inherits `Model`'s empty list. */
  function RelatedProperties(c: ModelClass): (names: seq<string>)
    ensures forall n :: n in names ==> n in Annotations(c)
  {
    match c
    case FollowerModel => []
    case UserModel => ["followers"]
    case PostModel => ["user"]
    case FeedModel => ["post"]
  }

  /** The names of `names` that are not in `excluded`, in their original order. */
  function Without(names: seq<string>, excluded: seq<string>): (r: seq<string>)
    ensures forall n :: n in r <==> n in names && n !in excluded
    ensures |r| <= |names|
  {
    if names == [] then []
    else if names[0] in excluded then Without(names[1..], excluded)
    else [names[0]] + Without(names[1..], excluded)
  }

  /** Filtering a concatenation filters each part in turn: the kept names stay in their original order. */
  lemma {:induction false} WithoutAppend(a: seq<string>, b: seq<string>, excluded: seq<string>)
    ensures Without(a + b, excluded) == Without(a, excluded) + Without(b, excluded)
    decreases |a|
  {
    if a == [] {
      assert a + b == b;
    } else {
      assert (a + b)[0] == a[0];
      assert (a + b)[1..] == a[1..] + b;
      WithoutAppend(a[1..], b, excluded);
    }
  }

  /** Filtering a list without repetitions gives a list without repetitions. */
  lemma {:induction false} WithoutDistinct(names: seq<string>, excluded: seq<string>)
    requires Distinct(names)
    ensures Distinct(Without(names, excluded))
    decreases |names|
  {
    if names != [] {
      var rest := names[1..];
      assert Distinct(rest) by {
        forall i, j | 0 <= i < j < |rest| ensures rest[i] != rest[j] {
          assert rest[i] == names[i + 1] && rest[j] == names[j + 1];
        }
      }
      WithoutDistinct(rest, excluded);
      if names[0] !in excluded {
        var tail := Without(rest, excluded);
        assert names[0] !in tail by {
          forall i | 0 <= i < |rest| ensures rest[i] != names[0] {
            assert rest[i] == names[i + 1];
          }
        }
        var r := [names[0]] + tail;
        forall i, j | 0 <= i < j < |r| ensures r[i] != r[j] {
          assert r[j] == tail[j - 1];
          if i > 0 {
            assert r[i] == tail[i - 1];
          }
        }
      }
    }
  }

  /** `get_properties`: the annotated fields minus the related ones. */
  function GetProperties(c: ModelClass): (names: seq<string>)
    ensures forall n :: n in names <==> n in Annotations(c) && n !in RelatedProperties(c)
  {
    Without(Annotations(c), RelatedProperties(c))
  }

  // ---------------------------------------------------------------------------
  // Model._format_value and Model.as_dict
  // ---------------------------------------------------------------------------

  /**
   * `_format_value`: a dict is rebuilt with its keys and formatted values, a
   * date is rendered as text, anything else (lists included) is returned as is.
   * Dates are rendered with the format string as the code writes it (see
   * Stamps.FormatStampAsWritten).
   */
  function FormatValue(v: Value): (r: Value)
    ensures Formatted(r)
    ensures r.Dict? <==> v.Dict?
    decreases v, 1
  {
    match v
    case Dict(entries) => Dict(FormatEntries(entries))
    case Date(stamp) => Str(Stamps.FormatStampAsWritten(stamp))
    case _ => v
  }

  function FormatEntries(es: seq<Entry>): (r: seq<Entry>)
    ensures AllFormatted(r)
    ensures Keys(r) == Keys(es)
    decreases es, 0
  {
    if es == [] then []
    else
      var head, tail := Entry(es[0].key, FormatValue(es[0].val)), FormatEntries(es[1..]);
      assert ([head] + tail)[1..] == tail;
      KeysTail(es);
      KeysAppend([head], tail);
      [head] + tail
  }

  /** A value `_format_value` has nothing left to do on: no date outside a list. */
  predicate Formatted(v: Value)
    decreases v, 1
  {
    match v
    case Date(_) => false
    case Dict(entries) => AllFormatted(entries)
    case _ => true
  }

  predicate AllFormatted(es: seq<Entry>)
    decreases es, 0
  {
    es == [] || (Formatted(es[0].val) && AllFormatted(es[1..]))
  }

  /** The dict comprehension filtering and formatting the fields of `asdict(self)`. */
  function Project(fields: seq<Entry>, excluded: seq<string>): (r: seq<Entry>)
    ensures Keys(r) == Without(Keys(fields), excluded)
  {
    if fields == [] then []
    else
      var tail := Project(fields[1..], excluded);
      KeysTail(fields);
      if fields[0].key in excluded then tail
      else
        var head := Entry(fields[0].key, FormatValue(fields[0].val));
        KeysAppend([head], tail);
        [head] + tail
  }

  // ---------------------------------------------------------------------------
  // The models
  // ---------------------------------------------------------------------------

  const StatusSent: int := 1
  const StatusAccepted: int := 2

  /** A follow request from `followerUserId` to `followedUserId`. */
  datatype Follower = Follower(id: int, followerUserId: int, followedUserId: int, status: int)
  {
    /** The viewer sent this request and it is still waiting. */
    predicate IsSent(userId: int) {
      followerUserId == userId && status == StatusSent
    }

    /** The viewer is the one this waiting request was sent to. */
    predicate IsReceived(userId: int) {
      followedUserId == userId && status == StatusSent
    }

    /** The viewer is either party of an accepted request. */
    predicate IsAccepted(userId: int) {
      (followerUserId == userId || followedUserId == userId) && status == StatusAccepted
    }
  }

  /** The five viewer-relative flags `get_info` adds to a profile. */
  datatype RelationshipView = RelationshipView(
    isSent: bool, isReceived: bool, isFriend: bool, canSend: bool, isCurrent: bool)

  const InfoKeys: seq<string> := ["is_sent", "is_received", "is_friend", "can_send", "is_current"]

  /** The flags as the dict literal of `get_info` writes them. */
  function InfoEntries(rv: RelationshipView): (d: seq<Entry>)
  {
    Zip(InfoKeys, InfoValues(rv))
  }

  function InfoValues(rv: RelationshipView): (vs: seq<Value>)
  {
    [Bool(rv.isSent), Bool(rv.isReceived), Bool(rv.isFriend), Bool(rv.canSend), Bool(rv.isCurrent)]
  }

  /**
   * A user's profile; `followers` holds the request records the query joined
   * in (the one relevant to some viewer, if any). Profile attributes keep
   * Python's dynamic typing: each may be `None`.
   */
  datatype User = User(
    id: int, name: Value, lastName: Value, email: Value, password: Value,
    birthDate: Value, age: Value, gender: Value, interests: Value, city: Value,
    followers: seq<Follower>)
  {
    /** `get_follower`: the first attached record, if there is one. */
    function GetFollower(): (r: Option<Follower>)
    {
      if followers == [] then None else Some(followers[0])
    }

    /** The `follower_info` dict of `get_info`, as a record. */
    function RelationshipInfo(userId: int): (rv: RelationshipView)
      ensures rv.canSend <==> followers == []
      ensures rv.canSend ==> !rv.isSent && !rv.isReceived && !rv.isFriend
      ensures rv.isFriend ==> !rv.isSent && !rv.isReceived
    {
      var follower := GetFollower();
      RelationshipView(
        isSent := follower.Some? && follower.value.IsSent(userId),
        isReceived := follower.Some? && follower.value.IsReceived(userId),
        isFriend := follower.Some? && follower.value.IsAccepted(userId),
        canSend := follower.None?,
        isCurrent := userId == id)
    }

    /** `get_info`: the profile projection merged with the relationship flags. */
    function GetInfo(userId: int): (d: seq<Entry>)
    {
      Merge(AsDict(UserObj(this), false), InfoEntries(RelationshipInfo(userId)))
    }
  }

  datatype Post = Post(id: int, userId: int, user: Option<User>, data: Value, dateCreate: Value)

  datatype Feed = Feed(id: int, userId: int, postId: int, post: Option<Post>, dateCreate: Value)

  /** An instance of one of the model classes. */
  datatype Instance =
    | FollowerObj(follower: Follower)
    | UserObj(user: User)
    | PostObj(post: Post)
    | FeedObj(feed: Feed)

  function ClassOf(x: Instance): ModelClass
  {
    match x
    case FollowerObj(_) => FollowerModel
    case UserObj(_) => UserModel
    case PostObj(_) => PostModel
    case FeedObj(_) => FeedModel
  }

  /** Orders the classes by how deeply their instances nest other models. */
  function Depth(c: ModelClass): nat
  {
    match c
    case FollowerModel => 0
    case UserModel => 1
    case PostModel => 2
    case FeedModel => 3
  }

  /** The values of the annotated fields, in declaration order, as `dataclasses.asdict` converts them. */
  function FieldValues(x: Instance): (vs: seq<Value>)
    ensures |vs| == |Annotations(ClassOf(x))|
    decreases Depth(ClassOf(x)), 0
  {
    match x
    case FollowerObj(f) =>
      [Int(f.id), Int(f.followerUserId), Int(f.followedUserId), Int(f.status)]
    case UserObj(u) =>
      [ Int(u.id), u.name, u.lastName, u.email, u.password, u.birthDate,
        u.age, u.gender, u.interests, u.city, List(FollowerDicts(u.followers)) ]
    case PostObj(p) =>
      [ Int(p.id), Int(p.userId), if p.user.Some? then Dict(Fields(UserObj(p.user.value))) else Null,
        p.data, p.dateCreate ]
    case FeedObj(f) =>
      [ Int(f.id), Int(f.userId), Int(f.postId),
        if f.post.Some? then Dict(Fields(PostObj(f.post.value))) else Null, f.dateCreate ]
  }

  /** A list of followers becomes a list of their dicts. */
  function FollowerDicts(fs: seq<Follower>): (vs: seq<Value>)
    ensures |vs| == |fs|
    decreases 0, 2
  {
    seq(|fs|, i requires 0 <= i < |fs| => Dict(Fields(FollowerObj(fs[i]))))
  }

  /** `dataclasses.asdict(self)`: each annotated field under its name, nested models as dicts. */
  function Fields(x: Instance): (d: seq<Entry>)
    ensures Keys(d) == Annotations(ClassOf(x))
    decreases Depth(ClassOf(x)), 1
  {
    Zip(Annotations(ClassOf(x)), FieldValues(x))
  }

  lemma AnnotationsDistinct(c: ModelClass)
    ensures Distinct(Annotations(c))
  {
  }

  /** Under each annotated name, `asdict` holds that field's value. */
  lemma FieldAt(x: Instance, i: nat)
    requires i < |Annotations(ClassOf(x))|
    ensures Lookup(Fields(x), Annotations(ClassOf(x))[i]) == Some(FieldValues(x)[i])
  {
    AnnotationsDistinct(ClassOf(x));
    ZipLookup(Annotations(ClassOf(x)), FieldValues(x), i);
  }

  /** `as_dict`: the formatted fields, leaving out the related ones unless `withRelated`. */
  function AsDict(x: Instance, withRelated: bool): (d: seq<Entry>)
  {
    Project(Fields(x), if withRelated then [] else RelatedProperties(ClassOf(x)))
  }

  // ---------------------------------------------------------------------------
  // Properties of _format_value
  // ---------------------------------------------------------------------------

  /** Formatting a dict formats the value under each key. */
  lemma {:induction false} FormatEntriesLookup(es: seq<Entry>, k: string)
    ensures Lookup(FormatEntries(es), k) == if k in Keys(es) then Some(FormatValue(Lookup(es, k).value)) else None
  {
    if es != [] {
      FormatEntriesLookup(es[1..], k);
    }
  }

  /** Values other than dicts and dates, lists among them, come back unchanged. */
  lemma FormatLeavesOthers(v: Value)
    requires !v.Dict? && !v.Date?
    ensures FormatValue(v) == v
  {
  }

  /** A date becomes its text rendering. */
  lemma FormatRendersDate(s: Stamps.Stamp)
    ensures FormatValue(Date(s)) == Str(Stamps.FormatStampAsWritten(s))
  {
  }

  /** A value with nothing to format is left as it is. */
  lemma {:induction false} FormattedFixed(v: Value)
    requires Formatted(v)
    ensures FormatValue(v) == v
    decreases v, 1
  {
    if v.Dict? {
      EntriesFormattedFixed(v.entries);
    }
  }

  lemma {:induction false} EntriesFormattedFixed(es: seq<Entry>)
    requires AllFormatted(es)
    ensures FormatEntries(es) == es
    decreases es, 0
  {
    if es != [] {
      FormattedFixed(es[0].val);
      EntriesFormattedFixed(es[1..]);
    }
  }

  /** Formatting twice is formatting once. */
  lemma FormatIdempotent(v: Value)
    ensures FormatValue(FormatValue(v)) == FormatValue(v)
  {
    FormattedFixed(FormatValue(v));
  }

  // ---------------------------------------------------------------------------
  // Properties of as_dict and get_properties
  // ---------------------------------------------------------------------------

  /** Under a kept key the projection holds the formatted field value; excluded keys are absent. */
  lemma {:induction false} ProjectLookup(fields: seq<Entry>, excluded: seq<string>, k: string)
    ensures Lookup(Project(fields, excluded), k) ==
      if k in excluded || k !in Keys(fields) then None else Some(FormatValue(Lookup(fields, k).value))
  {
    if fields != [] {
      ProjectLookup(fields[1..], excluded, k);
    }
  }

  /** `as_dict()` and `get_properties()` leave out exactly the same names, the related ones. */
  lemma AsDictKeys(x: Instance)
    ensures Keys(AsDict(x, false)) == GetProperties(ClassOf(x))
    ensures forall k :: k in Keys(AsDict(x, false)) <==> k in Annotations(ClassOf(x)) && k !in RelatedProperties(ClassOf(x))
  {
  }

  /** `as_dict` builds a real dict: no key occurs twice. */
  lemma AsDictUnique(x: Instance, withRelated: bool)
    ensures UniqueKeys(AsDict(x, withRelated))
  {
    AnnotationsDistinct(ClassOf(x));
    WithoutDistinct(Annotations(ClassOf(x)), if withRelated then [] else RelatedProperties(ClassOf(x)));
    UniqueByKeys(AsDict(x, withRelated));
  }

  /** `as_dict(with_related=True)` keeps every field. */
  lemma AsDictWithRelatedKeys(x: Instance)
    ensures Keys(AsDict(x, true)) == Annotations(ClassOf(x))
  {
    WithoutNothing(Annotations(ClassOf(x)));
  }

  lemma {:induction false} WithoutNothing(names: seq<string>)
    ensures Without(names, []) == names
  {
    if names != [] {
      WithoutNothing(names[1..]);
    }
  }

  /** Each key `as_dict` keeps maps to the formatted value of that field. */
  lemma AsDictLookup(x: Instance, withRelated: bool, k: string)
    ensures Lookup(AsDict(x, withRelated), k) ==
      if (!withRelated && k in RelatedProperties(ClassOf(x))) || k !in Annotations(ClassOf(x)) then None
      else Some(FormatValue(Lookup(Fields(x), k).value))
  {
    ProjectLookup(Fields(x), if withRelated then [] else RelatedProperties(ClassOf(x)), k);
  }

  /** Under the i-th annotated name, `as_dict` holds the i-th field value, formatted, unless that field is filtered out. */
  lemma AsDictField(x: Instance, withRelated: bool, i: nat)
    requires i < |Annotations(ClassOf(x))|
    requires withRelated || Annotations(ClassOf(x))[i] !in RelatedProperties(ClassOf(x))
    ensures Lookup(AsDict(x, withRelated), Annotations(ClassOf(x))[i]) == Some(FormatValue(FieldValues(x)[i]))
  {
    AsDictLookup(x, withRelated, Annotations(ClassOf(x))[i]);
    FieldAt(x, i);
  }

  /** With `with_related`, a post's joined user comes out as its formatted field dict. */
  lemma NestedUserFormatted(p: Post, u: User)
    requires p.user == Some(u)
    ensures Lookup(AsDict(PostObj(p), true), "user") == Some(Dict(FormatEntries(Fields(UserObj(u)))))
  {
    var fields := Fields(UserObj(u));
    assert FieldValues(PostObj(p))[2] == Dict(fields);
    assert Annotations(ClassOf(PostObj(p)))[2] == "user";
    AsDictField(PostObj(p), true, 2);
    assert FormatValue(Dict(fields)) == Dict(FormatEntries(fields));
  }

  /**
   * The nested dict is not filtered: the joined user's `followers` list stays
   * in it, and, being a list, is not formatted.
   */
  lemma NestedUserKeepsFollowers(u: User)
    ensures Lookup(FormatEntries(Fields(UserObj(u))), "followers") == Some(List(FollowerDicts(u.followers)))
  {
    assert Annotations(ClassOf(UserObj(u)))[10] == "followers";
    FieldAt(UserObj(u), 10);
    FormatEntriesLookup(Fields(UserObj(u)), "followers");
  }

  // ---------------------------------------------------------------------------
  // Properties of the Follower predicates
  // ---------------------------------------------------------------------------

  /** An accepted request is never also sent or received, for any viewer. */
  lemma AcceptedExcludesPending(f: Follower, u: int)
    requires f.IsAccepted(u)
    ensures !f.IsSent(u) && !f.IsReceived(u)
  {
  }

  /** Between two distinct users, no viewer sees a request as both sent and received. */
  lemma SentReceivedExclusive(f: Follower, u: int)
    requires f.followerUserId != f.followedUserId
    ensures !(f.IsSent(u) && f.IsReceived(u))
  {
  }

  /** A request someone sent to themselves reads as both sent and received. */
  lemma SelfRequestSentAndReceived(f: Follower)
    requires f.followerUserId == f.followedUserId && f.status == StatusSent
    ensures f.IsSent(f.followerUserId) && f.IsReceived(f.followerUserId)
  {
  }

  /** A status other than 1 (sent) or 2 (accepted) makes every predicate false. */
  lemma UnknownStatusAllFalse(f: Follower, u: int)
    requires f.status != StatusSent && f.status != StatusAccepted
    ensures !f.IsSent(u) && !f.IsReceived(u) && !f.IsAccepted(u)
  {
  }

  /** A viewer who is neither party sees nothing, whatever the status. */
  lemma OutsiderSeesNothing(f: Follower, u: int)
    requires u != f.followerUserId && u != f.followedUserId
    ensures !f.IsSent(u) && !f.IsReceived(u) && !f.IsAccepted(u)
  {
  }

  /** A waiting request between distinct users: the sender sees it sent, the recipient received, and no more. */
  lemma PendingParties(f: Follower)
    requires f.status == StatusSent && f.followerUserId != f.followedUserId
    ensures f.IsSent(f.followerUserId) && !f.IsReceived(f.followerUserId)
    ensures f.IsReceived(f.followedUserId) && !f.IsSent(f.followedUserId)
    ensures forall u :: !f.IsAccepted(u)
  {
  }

  /** An accepted request is a friendship for exactly its two parties, and pending for nobody. */
  lemma AcceptedParties(f: Follower)
    requires f.status == StatusAccepted
    ensures forall u :: f.IsAccepted(u) <==> u == f.followerUserId || u == f.followedUserId
    ensures forall u :: !f.IsSent(u) && !f.IsReceived(u)
  {
  }

  // ---------------------------------------------------------------------------
  // Properties of get_follower and get_info
  // ---------------------------------------------------------------------------

  /** `get_follower` is `None` exactly on an empty list, and otherwise the first record. */
  lemma GetFollowerFirst(u: User)
    ensures u.GetFollower().None? <==> |u.followers| == 0
    ensures |u.followers| > 0 ==> u.GetFollower() == Some(u.followers[0])
  {
  }

  /** Records after the first never affect `get_follower`. */
  lemma GetFollowerIgnoresTail(u: User, rest: seq<Follower>)
    requires |u.followers| > 0
    ensures u.(followers := [u.followers[0]] + rest).GetFollower() == u.GetFollower()
  {
  }

  /** Without a record every relationship flag is false and a request can be sent. */
  lemma InfoWithoutFollower(u: User, userId: int)
    requires u.followers == []
    ensures u.RelationshipInfo(userId) == RelationshipView(false, false, false, true, userId == u.id)
  {
  }

  /**
   * With a record, whatever its status or parties, no request can be sent, and
   * the other flags are the record's own predicates for the viewer.
   */
  lemma InfoWithFollower(u: User, userId: int)
    requires u.followers != []
    ensures var rv := u.RelationshipInfo(userId);
      && !rv.canSend
      && rv.isSent == u.followers[0].IsSent(userId)
      && rv.isReceived == u.followers[0].IsReceived(userId)
      && rv.isFriend == u.followers[0].IsAccepted(userId)
  {
  }

  /** A record between two other users still blocks sending, and shows no relationship. */
  lemma OutsiderRecordBlocksSend(u: User, userId: int)
    requires u.followers != []
    requires userId != u.followers[0].followerUserId && userId != u.followers[0].followedUserId
    ensures u.RelationshipInfo(userId) == RelationshipView(false, false, false, false, userId == u.id)
  {
  }

  /** `is_current` compares the viewer with the profile's id and nothing else. */
  lemma IsCurrentIgnoresFollowers(u: User, fs: seq<Follower>, userId: int)
    ensures u.(followers := fs).RelationshipInfo(userId).isCurrent == (userId == u.id)
  {
  }

  /** At most one of sent, received and friend is shown, unless the record links a user with themself. */
  lemma InfoFlagsExclusive(u: User, userId: int)
    requires u.followers != [] ==> u.followers[0].followerUserId != u.followers[0].followedUserId
    ensures var rv := u.RelationshipInfo(userId);
      (if rv.isSent then 1 else 0) + (if rv.isReceived then 1 else 0) + (if rv.isFriend then 1 else 0)
        + (if rv.canSend then 1 else 0) <= 1
  {
  }

  /** The flags dict: each flag under its own key, nothing else. */
  lemma InfoEntriesLookup(rv: RelationshipView, i: nat)
    requires i < |InfoKeys|
    ensures Keys(InfoEntries(rv)) == InfoKeys
    ensures UniqueKeys(InfoEntries(rv))
    ensures Lookup(InfoEntries(rv), InfoKeys[i]) == Some(InfoValues(rv)[i])
  {
    assert Distinct(InfoKeys);
    ZipLookup(InfoKeys, InfoValues(rv), i);
  }

  /**
   * What `get_info` returns under each key: the five flags take precedence
   * over the profile, every other key is looked up in `as_dict()`.
   */
  lemma GetInfoLookup(u: User, userId: int, k: string)
    ensures Lookup(u.GetInfo(userId), k) ==
      if k in InfoKeys then Lookup(InfoEntries(u.RelationshipInfo(userId)), k)
      else Lookup(AsDict(UserObj(u), false), k)
  {
    var profile, rv := AsDict(UserObj(u), false), u.RelationshipInfo(userId);
    var info := InfoEntries(rv);
    assert u.GetInfo(userId) == Merge(profile, info);
    InfoEntriesLookup(rv, 0);
    MergeLookup(profile, info, k);
  }

  /** `get_info` never exposes the follower records: `followers` is not a key of it. */
  lemma GetInfoHidesFollowers(u: User, userId: int)
    ensures Lookup(u.GetInfo(userId), "followers") == None
  {
    assert "followers" !in InfoKeys;
    GetInfoLookup(u, userId, "followers");
    assert RelatedProperties(ClassOf(UserObj(u)))[0] == "followers";
    AsDictLookup(UserObj(u), false, "followers");
  }

  /** Under every profile field name, `get_info` holds that field's formatted value. */
  lemma GetInfoProfileField(u: User, userId: int, i: nat)
    requires i < |GetProperties(UserModel)|
    ensures Lookup(u.GetInfo(userId), GetProperties(UserModel)[i])
      == Some(FormatValue(Lookup(Fields(UserObj(u)), GetProperties(UserModel)[i]).value))
  {
    var k := GetProperties(UserModel)[i];
    assert k in GetProperties(UserModel);
    FlagKeysNotFields(k);
    GetInfoLookup(u, userId, k);
    AsDictLookup(UserObj(u), false, k);
  }

  lemma {:induction false} FlagKeysNotFields(k: string)
    requires k in Annotations(UserModel)
    ensures k !in InfoKeys
  {
  }

  /** `get_info` lists the profile fields (in declaration order) and then the five flags. */
  lemma GetInfoLayout(u: User, userId: int)
    ensures u.GetInfo(userId) == AsDict(UserObj(u), false) + InfoEntries(u.RelationshipInfo(userId))
    ensures Keys(u.GetInfo(userId)) == GetProperties(UserModel) + InfoKeys
  {
    var profile, rv := AsDict(UserObj(u), false), u.RelationshipInfo(userId);
    var info := InfoEntries(rv);
    assert u.GetInfo(userId) == Merge(profile, info);
    InfoEntriesLookup(rv, 0);
    forall k | k in Keys(profile) ensures k !in Keys(info) {
      AsDictLookup(UserObj(u), false, k);
      FlagKeysNotFields(k);
    }
    DisjointByKeys(profile, info);
    MergeDisjoint(profile, info);
    AsDictKeys(UserObj(u));
    KeysAppend(profile, info);
  }

  /** `get_info` builds a real dict: no key occurs twice. */
  lemma GetInfoUnique(u: User, userId: int)
    ensures UniqueKeys(u.GetInfo(userId))
  {
    AsDictUnique(UserObj(u), false);
    MergeKeys(AsDict(UserObj(u), false), InfoEntries(u.RelationshipInfo(userId)));
  }

  /** Under the i-th flag name, `get_info` holds the i-th flag. */
  lemma GetInfoFlag(u: User, userId: int, i: nat)
    requires i < |InfoKeys|
    ensures Lookup(u.GetInfo(userId), InfoKeys[i]) == Some(InfoValues(u.RelationshipInfo(userId))[i])
  {
    GetInfoLookup(u, userId, InfoKeys[i]);
    InfoEntriesLookup(u.RelationshipInfo(userId), i);
  }

  /** `get_info()['can_send']` is true exactly when no record is attached. */
  lemma GetInfoCanSend(u: User, userId: int)
    ensures Lookup(u.GetInfo(userId), "can_send") == Some(Bool(u.followers == []))
  {
    assert InfoKeys[3] == "can_send";
    GetInfoFlag(u, userId, 3);
  }

  /** `get_info()['is_current']` is true exactly when the viewer is the profile's user. */
  lemma GetInfoIsCurrent(u: User, userId: int)
    ensures Lookup(u.GetInfo(userId), "is_current") == Some(Bool(userId == u.id))
  {
    assert InfoKeys[4] == "is_current";
    GetInfoFlag(u, userId, 4);
  }
}
