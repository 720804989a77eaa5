# Content-platform operations of the YOYOW chain protocol

This project models `content.hpp` from the YOYOW chain protocol. The header
declares five operations that run the chain's content platform:

- `platform_create_operation`: an account registers a platform and pledges collateral for it;
- `platform_update_operation`: the owner changes the platform's pledge, name, url or extra data. Each of these fields is optional, and an absent field means "unchanged";
- `platform_vote_update_operation`: a voter adds and withdraws votes for platforms;
- `post_operation`: a poster publishes a post on a platform, optionally linked to an origin post;
- `post_update_operation`: a poster edits a post, with optional fields.

For each operation the model gives:

- its fields, in declaration order, as a single-constructor datatype (`Content.PlatformCreateOperation` and its siblings). The union `Content.Operation` has one constructor per struct.
- `FeePayerUid`, the account that pays the fee.
- the authority resolver the struct defines. This is a method that mutates the caller's `flat_set<account_uid_type>`:
  - the three platform operations fill the *active* set with the owner or the voter;
  - the two post operations fill the *secondary* set with both the poster and the platform, so host and author co-sign.
- its `fee_parameters_type` record and that record's default values.

`boost::container::flat_set` is a strictly increasing vector with no
duplicates. The model represents it that way: `FlatSets.FlatSet` holds
`items: seq<Uid>`. Its `insert` is a binary-search lower bound followed by an
insertion into the vector. Lemmas show that such a vector holds no
duplicates. They also show that its set of elements determines the vector.
As a result, each resolver's set-level postcondition fixes the container's
whole new state.

Account ids (`account_uid_type`) and post ids (`post_pid_type`) are 64-bit
unsigned integers. Fee-parameter fields keep their C++ widths: `uint64`,
`uint32` and `uint16`. A default such as `uint32_t price_per_kbyte = 10 *
GRAPHENE_BLOCKCHAIN_PRECISION` is modelled as the C++ narrowing conversion, that
is, the product reduced modulo 2^32. Separate postconditions give the exact
value whenever the product fits.

`GRAPHENE_BLOCKCHAIN_PRECISION` is defined outside the header. It is an input
`precision` of type `Precision`, a positive integer. The reduction modulo 2^64
assumes that the constant has a 64-bit unsigned type. The header does not give
its type. A 32-bit type would wrap at 2^32, and a signed type could overflow.
`asset`, `fee_type` and `extensions_type` are also defined elsewhere, so they
are abstract types.

## Model

| member | source | states |
|---|---|---|
| ProtocolTypes.ToUint64 | libraries/chain/include/graphene/chain/protocol/content.hpp:19-20 | converting a product to `uint64_t` keeps it modulo 2^64, and keeps it exactly when it fits |
| ProtocolTypes.ToUint32 | libraries/chain/include/graphene/chain/protocol/content.hpp:22 | converting a product to `uint32_t` keeps it modulo 2^32, and keeps it exactly when it fits |
| FlatSets.CardinalityOfElements | libraries/chain/include/graphene/chain/protocol/content.hpp:43 | a strictly sorted vector (the flat_set the resolvers fill) holds no duplicates: its length equals the size of its set of elements |
| FlatSets.SortedDeterminedByElements | libraries/chain/include/graphene/chain/protocol/content.hpp:43 | two flat_sets with the same elements have the same vector, so a set-level postcondition determines the container's state |
| FlatSets.LowerBound | libraries/chain/include/graphene/chain/protocol/content.hpp:46 | the position `insert` searches for: every element before it is below `x`, and every element from it on is at least `x` |
| FlatSets.InsertAt | libraries/chain/include/graphene/chain/protocol/content.hpp:46 | inserting a new id at its lower bound keeps the vector strictly sorted, adds exactly that id and lengthens the vector by one |
| FlatSets.FlatSet.Insert | libraries/chain/include/graphene/chain/protocol/content.hpp:46 | `a.insert(x)`: the contents become old contents ∪ {x}; it reports whether `x` was new; it lengthens the vector by one exactly when `x` was new; otherwise the vector is unchanged |
| Content.PlatformCreateOperation.GetRequiredActiveUidAuthorities | libraries/chain/include/graphene/chain/protocol/content.hpp:43-47 | the active set becomes a ∪ {account}; it grows by one only if `account` was new; a set already holding `account` is left unchanged (idempotence); the fee payer ends up in the set |
| Content.PlatformUpdateOperation.GetRequiredActiveUidAuthorities | libraries/chain/include/graphene/chain/protocol/content.hpp:82-86 | the active set becomes a ∪ {account}; growth, idempotence and the fee payer as for platform create |
| Content.PlatformVoteUpdateOperation.GetRequiredActiveUidAuthorities | libraries/chain/include/graphene/chain/protocol/content.hpp:118-122 | the active set becomes a ∪ {voter}; growth, idempotence and the fee payer as above |
| Content.PostOperation.GetRequiredSecondaryUidAuthorities | libraries/chain/include/graphene/chain/protocol/content.hpp:164-168 | the secondary set becomes a ∪ {poster, platform}; it grows by exactly the number of those two ids that were absent, so by at most one when poster == platform; a set already holding both is unchanged; the fee payer ends up in the set |
| Content.PostUpdateOperation.GetRequiredSecondaryUidAuthorities | libraries/chain/include/graphene/chain/protocol/content.hpp:206-210 | the same as for post: a ∪ {poster, platform}, exact growth, idempotence, and the fee payer in the set |
| Content.InsertBoth | libraries/chain/include/graphene/chain/protocol/content.hpp:166-167 | inserting the poster and then the platform adds exactly {poster, platform}; the vector grows by the number of new ids among them |
| Content.TwoInserts | libraries/chain/include/graphene/chain/protocol/content.hpp:166-167 | two successive inserts, stated on vector values: union, exact growth, and no change when both ids were present |
| Content.FeePayerByVariant | libraries/chain/include/graphene/chain/protocol/content.hpp:40-203 | the fee payer is `account` for create (:40) and update (:79), `voter` for vote update (:115), and `poster` for post (:161) and post update (:203) |
| Content.RequiredAuthoritiesByVariant | libraries/chain/include/graphene/chain/protocol/content.hpp:43-210 | the active tier is {account} for create and update and {voter} for vote update; the secondary tier is {poster, platform} for post and post update |
| Content.FeePayerIsRequired | libraries/chain/include/graphene/chain/protocol/content.hpp:40-210 | in every variant, the fee payer belongs to the set that variant's own resolver adds |
| Content.ResolveTwice | libraries/chain/include/graphene/chain/protocol/content.hpp:43-210 | calling an operation's own resolver twice on the same flat_set gives the same vector as calling it once, and that vector holds the old contents ∪ the resolver's accounts (idempotence on the container) |
| Content.PostAuthoritiesIgnoreContent | libraries/chain/include/graphene/chain/protocol/content.hpp:164-168 | two posts with the same poster and platform require the same secondary set, whatever their pid, origin, hash, title, body or extra data |
| Content.PostUpdateAuthoritiesIgnoreContent | libraries/chain/include/graphene/chain/protocol/content.hpp:206-210 | two post updates with the same poster and platform require the same secondary set, whatever their optional content fields hold |
| Content.VoteAuthoritiesIgnorePlatforms | libraries/chain/include/graphene/chain/protocol/content.hpp:118-122 | two vote updates by the same voter require the same active set, whatever is in `platform_to_add` or `platform_to_remove` |
| Content.PostAuthorityCount | libraries/chain/include/graphene/chain/protocol/content.hpp:164-168 | a post names one secondary account when poster == platform, and two otherwise |
| Content.DefaultPlatformCreateFeeParameters | libraries/chain/include/graphene/chain/protocol/content.hpp:19-22 | by default `fee == min_real_fee` and `min_rf_percent == 10000`; `fee` is 1000·P and `price_per_kbyte` is 10·P, both positive, whenever they fit their widths |
| Content.DefaultPlatformUpdateFeeParameters | libraries/chain/include/graphene/chain/protocol/content.hpp:58-61 | `min_real_fee == 0` and `min_rf_percent == 0`; `fee` and `price_per_kbyte` are 10·P, positive, when they fit |
| Content.DefaultPlatformVoteUpdateFeeParameters | libraries/chain/include/graphene/chain/protocol/content.hpp:97-100 | `min_real_fee == 0` and `min_rf_percent == 0`; `basic_fee == price_per_platform`, both equal to P when P fits |
| Content.DefaultPostFeeParameters | libraries/chain/include/graphene/chain/protocol/content.hpp:137-140 | `min_real_fee == 0` and `min_rf_percent == 0`; `fee` is P and `price_per_kbyte` is 10·P when they fit |
| Content.DefaultPostUpdateFeeParameters | libraries/chain/include/graphene/chain/protocol/content.hpp:183-186 | `min_real_fee == 0` and `min_rf_percent == 0`; `fee` is P and `price_per_kbyte` is 10·P when they fit |
| Content.DefaultRfPercentWithinBasisPoints | libraries/chain/include/graphene/chain/protocol/content.hpp:21-186 | every default `min_rf_percent` is at most 10000 basis points |
| Content.DefaultPlatformCreateOperation | libraries/chain/include/graphene/chain/protocol/content.hpp:33-37 | a platform create operation with its member defaults has empty `name` and `url` and `extra_data == "{}"`, and its fee payer is its account |
| Content.DefaultPostOperation | libraries/chain/include/graphene/chain/protocol/content.hpp:148-157 | a default post has `platform == poster == 0`, no origin triple, empty hash, title and body, and `extra_data == "{}"` |
| Content.DefaultPostAuthorities | libraries/chain/include/graphene/chain/protocol/content.hpp:148-168 | a default post's fee payer is account 0, and its secondary set is exactly {0} |

## Left out

- `validate()`: declared for every operation but defined outside the header. No length, emptiness, disjointness or origin-triple check is modelled.
- `calculate_fee()`: only declared here, so no size pricing, floor or `min_rf_percent` formula is modelled. The fee-parameter records are data only.
- `FC_REFLECT` serialisation: the encoding is done by the fc reflection library, which is not part of this model. The datatypes keep the reflected field order, and nothing more about serialisation is modelled.
- Whatever the authority hooks inherited from `base_operation` add is not modelled. They are defined in `base.hpp`, which is not part of this model. The model states only what each struct's own resolver inserts.
- `asset`, `fee_type`, `extensions_type` and the value of `GRAPHENE_BLOCKCHAIN_PRECISION` are defined outside the header. The first three are abstract types. The precision is an input.
- Members with no default initialiser are inputs of `DefaultPlatformCreateOperation` and `DefaultPostOperation`: for example `account` and `post_pid`, whose default-initialised value C++ leaves indeterminate.
- Default operations for platform update, vote update and post update are not modelled. Those structs give their fields no initialisers beyond the types' own defaults.
- `FlatSets.FlatSet.Insert`: returns only the `bool` half of flat_set's `pair<iterator, bool>`. Iterators and allocation are not modelled.
- `platform_to_add` and `platform_to_remove` are modelled as `set<Uid>` values. The resolvers do not read them, so their sorted-vector layout is irrelevant here.
- Signature checking, ledger state and applying an operation's effects happen outside this header.
