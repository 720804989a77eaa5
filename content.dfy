/** The five content-platform operations of the chain protocol: platform
    create, platform update, platform vote update, post and post update.
    Each operation struct is a single-constructor datatype carrying its
    fields in declaration order, with its fee payer, the accounts whose
    authority it requires, and its default fee parameters. `validate` and
    `calculate_fee` are only declared by the header and are not modelled. */
module Content {
  import opened ProtocolTypes
  import opened FlatSets

  /** `GRAPHENE_BLOCKCHAIN_PRECISION`: a positive constant defined outside
      the content header; the default fee parameters take it as an input. */
  type Precision = p: nat | p > 0 witness 1

  /** The authority tier an operation's own resolver fills. */
  datatype Tier = Active | Secondary

  // ---------------------------------------------------------------------
  // platform_create_operation
  // ---------------------------------------------------------------------

  datatype PlatformCreateFeeParameters = PlatformCreateFeeParameters(
    fee: uint64,
    minRealFee: uint64,
    minRfPercent: uint16,
    pricePerKbyte: uint32,
    extensions: Extensions)

  /** Registers a platform owned, and paid for, by `account`. */
  datatype PlatformCreateOperation = PlatformCreateOperation(
    fee: FeeType,
    account: Uid,
    pledge: Asset,
    name: string,
    url: string,
    extraData: string,
    extensions: Extensions)
  {
    function FeePayerUid(): Uid {
      account
    }

    /** The accounts `get_required_active_uid_authorities` inserts. */
    function RequiredActive(): set<Uid> {
      {account}
    }

    /** `get_required_active_uid_authorities(a)`: inserts the owner. */
    method GetRequiredActiveUidAuthorities(a: FlatSet)
      requires a.Valid()
      modifies a
      ensures a.Valid()
      ensures a.Contents() == old(a.Contents()) + RequiredActive()
      ensures |a.items| == old(|a.items|) + |RequiredActive() - old(a.Contents())|
      ensures RequiredActive() <= old(a.Contents()) ==> a.items == old(a.items)
      ensures FeePayerUid() in a.Contents()
    {
      var inserted := a.Insert(account);
    }
  }

  // ---------------------------------------------------------------------
  // platform_update_operation
  // ---------------------------------------------------------------------

  datatype PlatformUpdateFeeParameters = PlatformUpdateFeeParameters(
    fee: uint64,
    minRealFee: uint64,
    minRfPercent: uint16,
    pricePerKbyte: uint32,
    extensions: Extensions)

  /** Changes the platform of `account`; an absent field is left as it is. */
  datatype PlatformUpdateOperation = PlatformUpdateOperation(
    fee: FeeType,
    account: Uid,
    newPledge: Option<Asset>,
    newName: Option<string>,
    newUrl: Option<string>,
    newExtraData: Option<string>,
    extensions: Extensions)
  {
    function FeePayerUid(): Uid {
      account
    }

    /** The accounts `get_required_active_uid_authorities` inserts. */
    function RequiredActive(): set<Uid> {
      {account}
    }

    /** `get_required_active_uid_authorities(a)`: inserts the owner. */
    method GetRequiredActiveUidAuthorities(a: FlatSet)
      requires a.Valid()
      modifies a
      ensures a.Valid()
      ensures a.Contents() == old(a.Contents()) + RequiredActive()
      ensures |a.items| == old(|a.items|) + |RequiredActive() - old(a.Contents())|
      ensures RequiredActive() <= old(a.Contents()) ==> a.items == old(a.items)
      ensures FeePayerUid() in a.Contents()
    {
      var inserted := a.Insert(account);
    }
  }

  // ---------------------------------------------------------------------
  // platform_vote_update_operation
  // ---------------------------------------------------------------------

  datatype PlatformVoteUpdateFeeParameters = PlatformVoteUpdateFeeParameters(
    basicFee: uint64,
    pricePerPlatform: uint64,
    minRealFee: uint64,
    minRfPercent: uint16,
    extensions: Extensions)

  /** `voter` adds and withdraws votes for platforms. */
  datatype PlatformVoteUpdateOperation = PlatformVoteUpdateOperation(
    fee: FeeType,
    voter: Uid,
    platformToAdd: set<Uid>,
    platformToRemove: set<Uid>,
    extensions: Extensions)
  {
    function FeePayerUid(): Uid {
      voter
    }

    /** The accounts `get_required_active_uid_authorities` inserts: only the
        voter, never a platform voted for or against. */
    function RequiredActive(): set<Uid> {
      {voter}
    }

    /** `get_required_active_uid_authorities(a)`: inserts the voter. */
    method GetRequiredActiveUidAuthorities(a: FlatSet)
      requires a.Valid()
      modifies a
      ensures a.Valid()
      ensures a.Contents() == old(a.Contents()) + RequiredActive()
      ensures |a.items| == old(|a.items|) + |RequiredActive() - old(a.Contents())|
      ensures RequiredActive() <= old(a.Contents()) ==> a.items == old(a.items)
      ensures FeePayerUid() in a.Contents()
    {
      var inserted := a.Insert(voter);
    }
  }

  // ---------------------------------------------------------------------
  // post_operation
  // ---------------------------------------------------------------------

  datatype PostFeeParameters = PostFeeParameters(
    fee: uint64,
    pricePerKbyte: uint32,
    minRealFee: uint64,
    minRfPercent: uint16,
    extensions: Extensions)

  /** `poster` publishes post `postPid` on `platform`, optionally as a
      repost of or reply to an origin post. */
  datatype PostOperation = PostOperation(
    fee: FeeType,
    postPid: PostPid,
    platform: Uid,
    poster: Uid,
    originPoster: Option<Uid>,
    originPostPid: Option<PostPid>,
    originPlatform: Option<Uid>,
    hashValue: string,
    extraData: string,
    title: string,
    body: string,
    extensions: Extensions)
  {
    function FeePayerUid(): Uid {
      poster
    }

    /** The accounts `get_required_secondary_uid_authorities` inserts: both
        the author and the hosting platform. */
    function RequiredSecondary(): set<Uid> {
      {poster, platform}
    }

    /** `get_required_secondary_uid_authorities(a)`: inserts the poster,
        then the platform. */
    method GetRequiredSecondaryUidAuthorities(a: FlatSet)
      requires a.Valid()
      modifies a
      ensures a.Valid()
      ensures a.Contents() == old(a.Contents()) + RequiredSecondary()
      ensures |a.items| == old(|a.items|) + |RequiredSecondary() - old(a.Contents())|
      ensures RequiredSecondary() <= old(a.Contents()) ==> a.items == old(a.items)
      ensures FeePayerUid() in a.Contents()
    {
      InsertBoth(a, poster, platform);
    }
  }

  // ---------------------------------------------------------------------
  // post_update_operation
  // ---------------------------------------------------------------------

  datatype PostUpdateFeeParameters = PostUpdateFeeParameters(
    fee: uint64,
    pricePerKbyte: uint32,
    minRealFee: uint64,
    minRfPercent: uint16,
    extensions: Extensions)

  /** `poster` edits post `postPid` on `platform`; an absent field is left
      as it is. */
  datatype PostUpdateOperation = PostUpdateOperation(
    fee: FeeType,
    platform: Uid,
    poster: Uid,
    postPid: PostPid,
    hashValue: Option<string>,
    extraData: Option<string>,
    title: Option<string>,
    body: Option<string>,
    extensions: Extensions)
  {
    function FeePayerUid(): Uid {
      poster
    }

    /** The accounts `get_required_secondary_uid_authorities` inserts: both
        the author and the hosting platform. */
    function RequiredSecondary(): set<Uid> {
      {poster, platform}
    }

    /** `get_required_secondary_uid_authorities(a)`: inserts the poster,
        then the platform. */
    method GetRequiredSecondaryUidAuthorities(a: FlatSet)
      requires a.Valid()
      modifies a
      ensures a.Valid()
      ensures a.Contents() == old(a.Contents()) + RequiredSecondary()
      ensures |a.items| == old(|a.items|) + |RequiredSecondary() - old(a.Contents())|
      ensures RequiredSecondary() <= old(a.Contents()) ==> a.items == old(a.items)
      ensures FeePayerUid() in a.Contents()
    {
      InsertBoth(a, poster, platform);
    }
  }

  /** The two `insert` calls shared by both post resolvers: `first`, then
      `second`; when they are the same account the second call adds nothing. */
  method InsertBoth(a: FlatSet, first: Uid, second: Uid)
    requires a.Valid()
    modifies a
    ensures a.Valid()
    ensures a.Contents() == old(a.Contents()) + {first, second}
    ensures |a.items| == old(|a.items|) + |{first, second} - old(a.Contents())|
    ensures {first, second} <= old(a.Contents()) ==> a.items == old(a.items)
  {
    ghost var s0 := a.items;
    var addedFirst := a.Insert(first);
    ghost var s1 := a.items;
    var addedSecond := a.Insert(second);
    TwoInserts(s0, s1, a.items, first, second);
  }

  /** What two successive `insert` calls do to the vector, stated on values. */
  lemma TwoInserts(s0: seq<Uid>, s1: seq<Uid>, s2: seq<Uid>, first: Uid, second: Uid)
    requires Elements(s1) == Elements(s0) + {first}
    requires |s1| == |s0| + (if first in Elements(s0) then 0 else 1)
    requires first in Elements(s0) ==> s1 == s0
    requires Elements(s2) == Elements(s1) + {second}
    requires |s2| == |s1| + (if second in Elements(s1) then 0 else 1)
    requires second in Elements(s1) ==> s2 == s1
    ensures Elements(s2) == Elements(s0) + {first, second}
    ensures |s2| == |s0| + |{first, second} - Elements(s0)|
    ensures {first, second} <= Elements(s0) ==> s2 == s0
  {
  }

  // ---------------------------------------------------------------------
  // The operation family
  // ---------------------------------------------------------------------

  /** The closed set of content operations, one constructor per struct. */
  datatype Operation =
    | PlatformCreate(platformCreate: PlatformCreateOperation)
    | PlatformUpdate(platformUpdate: PlatformUpdateOperation)
    | PlatformVoteUpdate(platformVoteUpdate: PlatformVoteUpdateOperation)
    | Post(post: PostOperation)
    | PostUpdate(postUpdate: PostUpdateOperation)
  {
    /** The struct's own `fee_payer_uid()`. */
    function FeePayerUid(): Uid {
      match this
      case PlatformCreate(o) => o.FeePayerUid()
      case PlatformUpdate(o) => o.FeePayerUid()
      case PlatformVoteUpdate(o) => o.FeePayerUid()
      case Post(o) => o.FeePayerUid()
      case PostUpdate(o) => o.FeePayerUid()
    }

    /** The tier of the resolver the struct defines itself: the platform
        operations define the active one, the post operations the secondary. */
    function AuthorityTier(): Tier {
      match this
      case PlatformCreate(_) => Active
      case PlatformUpdate(_) => Active
      case PlatformVoteUpdate(_) => Active
      case Post(_) => Secondary
      case PostUpdate(_) => Secondary
    }

    /** The accounts that resolver inserts. */
    function RequiredAuthorities(): set<Uid> {
      match this
      case PlatformCreate(o) => o.RequiredActive()
      case PlatformUpdate(o) => o.RequiredActive()
      case PlatformVoteUpdate(o) => o.RequiredActive()
      case Post(o) => o.RequiredSecondary()
      case PostUpdate(o) => o.RequiredSecondary()
    }
  }

  /** The account each operation names as its fee payer. */
  lemma FeePayerByVariant(op: Operation)
    ensures op.PlatformCreate? ==> op.FeePayerUid() == op.platformCreate.account
    ensures op.PlatformUpdate? ==> op.FeePayerUid() == op.platformUpdate.account
    ensures op.PlatformVoteUpdate? ==> op.FeePayerUid() == op.platformVoteUpdate.voter
    ensures op.Post? ==> op.FeePayerUid() == op.post.poster
    ensures op.PostUpdate? ==> op.FeePayerUid() == op.postUpdate.poster
  {
  }

  /** Exactly which accounts, at which tier, each operation asks to sign. */
  lemma RequiredAuthoritiesByVariant(op: Operation)
    ensures op.PlatformCreate? ==>
      op.AuthorityTier() == Active && op.RequiredAuthorities() == {op.platformCreate.account}
    ensures op.PlatformUpdate? ==>
      op.AuthorityTier() == Active && op.RequiredAuthorities() == {op.platformUpdate.account}
    ensures op.PlatformVoteUpdate? ==>
      op.AuthorityTier() == Active && op.RequiredAuthorities() == {op.platformVoteUpdate.voter}
    ensures op.Post? ==>
      op.AuthorityTier() == Secondary && op.RequiredAuthorities() == {op.post.poster, op.post.platform}
    ensures op.PostUpdate? ==>
      op.AuthorityTier() == Secondary && op.RequiredAuthorities() == {op.postUpdate.poster, op.postUpdate.platform}
  {
  }

  /** Whoever pays the fee is among the accounts the operation's own
      resolver requires, so it always signs. */
  lemma FeePayerIsRequired(op: Operation)
    ensures op.FeePayerUid() in op.RequiredAuthorities()
  {
  }

  /** Running an operation's own resolver a second time on the same
      flat_set changes nothing: `once` is the vector after the first call,
      and it equals the vector after the second. */
  method ResolveTwice(op: Operation, a: FlatSet) returns (once: seq<Uid>)
    requires a.Valid()
    modifies a
    ensures a.Valid()
    ensures Elements(once) == old(a.Contents()) + op.RequiredAuthorities()
    ensures a.items == once
  {
    match op
    case PlatformCreate(o) =>
      o.GetRequiredActiveUidAuthorities(a);
      once := a.items;
      o.GetRequiredActiveUidAuthorities(a);
    case PlatformUpdate(o) =>
      o.GetRequiredActiveUidAuthorities(a);
      once := a.items;
      o.GetRequiredActiveUidAuthorities(a);
    case PlatformVoteUpdate(o) =>
      o.GetRequiredActiveUidAuthorities(a);
      once := a.items;
      o.GetRequiredActiveUidAuthorities(a);
    case Post(o) =>
      o.GetRequiredSecondaryUidAuthorities(a);
      once := a.items;
      o.GetRequiredSecondaryUidAuthorities(a);
    case PostUpdate(o) =>
      o.GetRequiredSecondaryUidAuthorities(a);
      once := a.items;
      o.GetRequiredSecondaryUidAuthorities(a);
  }

  /** The post resolvers look only at `poster` and `platform`: content,
      pid and origin fields do not matter. */
  lemma PostAuthoritiesIgnoreContent(p: PostOperation, q: PostOperation)
    requires p.poster == q.poster && p.platform == q.platform
    ensures p.RequiredSecondary() == q.RequiredSecondary()
  {
  }

  lemma PostUpdateAuthoritiesIgnoreContent(p: PostUpdateOperation, q: PostUpdateOperation)
    requires p.poster == q.poster && p.platform == q.platform
    ensures p.RequiredSecondary() == q.RequiredSecondary()
  {
  }

  /** The vote resolver looks only at `voter`, whatever platforms are added
      or removed. */
  lemma VoteAuthoritiesIgnorePlatforms(v: PlatformVoteUpdateOperation, w: PlatformVoteUpdateOperation)
    requires v.voter == w.voter
    ensures v.RequiredActive() == w.RequiredActive()
  {
  }

  /** A post on the poster's own platform names one account; otherwise two. */
  lemma PostAuthorityCount(op: Operation)
    requires op.Post? || op.PostUpdate?
    ensures var (poster, platform) :=
        if op.Post? then (op.post.poster, op.post.platform) else (op.postUpdate.poster, op.postUpdate.platform);
      |op.RequiredAuthorities()| == if poster == platform then 1 else 2
  {
  }

  // ---------------------------------------------------------------------
  // Default fee parameters
  // ---------------------------------------------------------------------

  function DefaultPlatformCreateFeeParameters(precision: Precision, extensions: Extensions)
    : (k: PlatformCreateFeeParameters)
    ensures k.fee == k.minRealFee
    ensures k.minRfPercent == 10000
    ensures 1000 * precision < U64_LIMIT ==> k.fee as int == 1000 * precision && k.fee > 0
    ensures 10 * precision < U32_LIMIT ==> k.pricePerKbyte as int == 10 * precision && k.pricePerKbyte > 0
  {
    PlatformCreateFeeParameters(
      ToUint64(1000 * precision), ToUint64(1000 * precision), 10000, ToUint32(10 * precision), extensions)
  }

  function DefaultPlatformUpdateFeeParameters(precision: Precision, extensions: Extensions)
    : (k: PlatformUpdateFeeParameters)
    ensures k.minRealFee == 0 && k.minRfPercent == 0
    ensures 10 * precision < U64_LIMIT ==> k.fee as int == 10 * precision && k.fee > 0
    ensures 10 * precision < U32_LIMIT ==> k.pricePerKbyte as int == 10 * precision && k.pricePerKbyte > 0
  {
    PlatformUpdateFeeParameters(ToUint64(10 * precision), 0, 0, ToUint32(10 * precision), extensions)
  }

  function DefaultPlatformVoteUpdateFeeParameters(precision: Precision, extensions: Extensions)
    : (k: PlatformVoteUpdateFeeParameters)
    ensures k.minRealFee == 0 && k.minRfPercent == 0
    ensures k.basicFee == k.pricePerPlatform
    ensures precision < U64_LIMIT ==> k.basicFee as int == precision
  {
    PlatformVoteUpdateFeeParameters(ToUint64(precision), ToUint64(precision), 0, 0, extensions)
  }

  function DefaultPostFeeParameters(precision: Precision, extensions: Extensions)
    : (k: PostFeeParameters)
    ensures k.minRealFee == 0 && k.minRfPercent == 0
    ensures precision < U64_LIMIT ==> k.fee as int == precision
    ensures 10 * precision < U32_LIMIT ==> k.pricePerKbyte as int == 10 * precision
  {
    PostFeeParameters(ToUint64(precision), ToUint32(10 * precision), 0, 0, extensions)
  }

  function DefaultPostUpdateFeeParameters(precision: Precision, extensions: Extensions)
    : (k: PostUpdateFeeParameters)
    ensures k.minRealFee == 0 && k.minRfPercent == 0
    ensures precision < U64_LIMIT ==> k.fee as int == precision
    ensures 10 * precision < U32_LIMIT ==> k.pricePerKbyte as int == 10 * precision
  {
    PostUpdateFeeParameters(ToUint64(precision), ToUint32(10 * precision), 0, 0, extensions)
  }

  /** Every default `min_rf_percent` is a basis-point value, at most 10000. */
  lemma DefaultRfPercentWithinBasisPoints(precision: Precision, extensions: Extensions)
    ensures DefaultPlatformCreateFeeParameters(precision, extensions).minRfPercent <= 10000
    ensures DefaultPlatformUpdateFeeParameters(precision, extensions).minRfPercent <= 10000
    ensures DefaultPlatformVoteUpdateFeeParameters(precision, extensions).minRfPercent <= 10000
    ensures DefaultPostFeeParameters(precision, extensions).minRfPercent <= 10000
    ensures DefaultPostUpdateFeeParameters(precision, extensions).minRfPercent <= 10000
  {
  }

  // ---------------------------------------------------------------------
  // Field defaults
  // ---------------------------------------------------------------------

  /** A platform create operation with its member defaults applied
      (`name` and `url` empty strings, `extra_data` the empty JSON object);
      the fields without a default are inputs. */
  function DefaultPlatformCreateOperation(fee: FeeType, account: Uid, pledge: Asset, extensions: Extensions)
    : (op: PlatformCreateOperation)
    ensures op.extraData == "{}" && op.name == "" && op.url == ""
    ensures op.FeePayerUid() == account
  {
    PlatformCreateOperation(fee, account, pledge, "", "", "{}", extensions)
  }

  /** A post operation with its member defaults applied (platform and
      poster 0, no origin, empty strings, `extra_data` the empty JSON object). */
  function DefaultPostOperation(fee: FeeType, postPid: PostPid, extensions: Extensions)
    : (op: PostOperation)
    ensures op.platform == 0 && op.poster == 0 && op.extraData == "{}"
    ensures op.originPoster == None && op.originPostPid == None && op.originPlatform == None
    ensures op.hashValue == "" && op.title == "" && op.body == ""
  {
    PostOperation(fee, postPid, 0, 0, None, None, None, "", "{}", "", "", extensions)
  }

  /** A default post pays from, and needs the secondary key of, account 0 only. */
  lemma DefaultPostAuthorities(fee: FeeType, postPid: PostPid, extensions: Extensions)
    ensures DefaultPostOperation(fee, postPid, extensions).FeePayerUid() == 0
    ensures DefaultPostOperation(fee, postPid, extensions).RequiredSecondary() == {0}
  {
  }
}
