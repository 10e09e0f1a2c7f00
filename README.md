# Partnership model

A Dafny model of the partnership record of as2-lib. A partnership names one
pair of trading partners. It holds a name that is never null and three
string-to-string stores:

- the sender IDs,
- the receiver IDs,
- the free-form partnership attributes.

The model covers the record's behaviour apart from what "## Left out" lists:

- updates of single keys, where a null value removes the key;
- bulk additions;
- lookups, lookups with a default, containment tests and copying reads;
- the wholesale overwrite `copyFrom`;
- the asymmetric matching rule `matches` / `compareIDs`, which is what a
  partner directory uses to pick the configuration for a message.

Files:

- `wrappers.dfy` (module `Wrappers`): `Option<T>`. It stands for a Java
  reference that may be null.
- `string_maps.dfy` (module `StringMaps`): the store behind each of the three
  maps. It is a finite `map<string, string>`, so a stored value is never null.
  It has lookup, containment, lookup with a default, single-key update
  (`Set`, where a null value removes the key) and bulk addition (`AddAll`).
- `partnership.dfy` (module `Partner`) holds:
  - the matching rule `CompareIDs` as a pure predicate, with its lemmas;
  - the class `Partnership`, whose fields `name`, `senderIDs`, `receiverIDs`
    and `attributes` are updated in place by its methods;
  - the loop of `compareIDs`, proved equal to the predicate for every
    iteration order.

Java's non-null checks on arguments become Dafny's types. A key passed to an
update is a `string`, and so is a name. A partnership passed to `Matches` or
`CopyFrom` is a non-null reference. Arguments the source accepts as null are
`Option` values: lookup keys, values (null removes) and bulk maps.

`compareIDs` is a loop over the entries of the source store, and it stops
early. `CompareIDsByIteration` runs that loop over any sequence `order` that
lists exactly the store's keys. It returns `CompareIDs(ids, compareTo)` for
every such order, so the result does not depend on iteration order.

Only `setAttribute`
(src/main/java/com/helger/as2lib/partner/Partnership.java:431-434) returns a
change report. `setSenderID` (:92-95) and `setReceiverID` (:260-263) return
nothing, and so do `SetSenderID` and `SetReceiverID`.

## Model

| member | source | states |
|---|---|---|
| StringMaps.Get | src/main/java/com/helger/as2lib/partner/Partnership.java:148-160 | a lookup gives a value exactly when the key is non-null and present, and then gives the stored value; otherwise null |
| StringMaps.Contains | src/main/java/com/helger/as2lib/partner/Partnership.java:195-206 | a key is contained exactly when it is non-null and present, which is exactly when its lookup gives a non-null value (the store's `containsAttribute`, used at :205, :373 and :479) |
| StringMaps.GetOr | src/main/java/com/helger/as2lib/partner/Partnership.java:451-467 | a lookup with a default gives the stored value when the key is non-null and present, and the default otherwise |
| StringMaps.Set | src/main/java/com/helger/as2lib/partner/Partnership.java:83-95 | after an update the key reads back as the written value; a null value leaves the key absent; every other key keeps its presence and value |
| StringMaps.SetChangesIff | src/main/java/com/helger/as2lib/partner/Partnership.java:419-434 | an update changes the store exactly when the written value differs from the value read before; removing an absent key or rewriting the same value is a no-op |
| StringMaps.SetSetSameKey | src/main/java/com/helger/as2lib/partner/Partnership.java:83-95 | of two updates of one key the second wins |
| StringMaps.SetSetCommute | src/main/java/com/helger/as2lib/partner/Partnership.java:83-95 | updates of two different keys commute |
| StringMaps.AddAll | src/main/java/com/helger/as2lib/partner/Partnership.java:492-503 | bulk addition: a null map changes nothing; keys the incoming map does not name are kept; an incoming key reads back as its incoming value, and a null incoming value removes the key |
| StringMaps.AddAllOneAtATime | src/main/java/com/helger/as2lib/partner/Partnership.java:492-503 | bulk addition equals adding all entries but one and then setting that one, so it is per-entry update in any order |
| StringMaps.AddAllEmpty | src/main/java/com/helger/as2lib/partner/Partnership.java:136-146 | adding an empty map changes nothing |
| Partner.CompareIDs | src/main/java/com/helger/as2lib/partner/Partnership.java:533-546 | the compareIDs rule: a non-empty source store each of whose keys is found in the other store with an equal value; a store that passes is non-empty and its keys are all keys of the other store |
| Partner.CompareIDsIsNonEmptySubMap | src/main/java/com/helger/as2lib/partner/Partnership.java:522-546 | compareIDs holds exactly when the source store is non-empty and each of its key/value pairs is a pair of the other store |
| Partner.CompareIDsEmptyNeverMatches | src/main/java/com/helger/as2lib/partner/Partnership.java:535-536 | an empty source store never matches, whatever the other store holds |
| Partner.CompareIDsIgnoresOtherKeys | src/main/java/com/helger/as2lib/partner/Partnership.java:538-545 | two candidate stores that agree on the source store's keys get the same answer; extra keys do not matter |
| Partner.CompareIDsNoPartialMatch | src/main/java/com/helger/as2lib/partner/Partnership.java:538-544 | changing or removing, in the candidate, the value of any one key of the source store makes the comparison fail |
| Partner.CompareIDsReflexive | src/main/java/com/helger/as2lib/partner/Partnership.java:533-546 | a non-empty store matches itself |
| Partner.CompareIDsTransitive | src/main/java/com/helger/as2lib/partner/Partnership.java:533-546 | if a matches b and b matches c then a matches c |
| Partner.CompareIDsAntisymmetric | src/main/java/com/helger/as2lib/partner/Partnership.java:533-546 | two stores that match each other are equal |
| Partner.CompareIDsNotSymmetric | src/main/java/com/helger/as2lib/partner/Partnership.java:522-531 | the rule is asymmetric: some store matches another that does not match it back |
| Partner.Partnership.constructor | src/main/java/com/helger/as2lib/partner/Partnership.java:63-66 | a new partnership has the given non-null name and three empty stores |
| Partner.Partnership.Default | src/main/java/com/helger/as2lib/partner/Partnership.java:51-61 | the default partnership is named "auto-created-dummy" and has three empty stores |
| Partner.Partnership.SetName | src/main/java/com/helger/as2lib/partner/Partnership.java:68-72 | renaming sets the name to the given non-null name and changes nothing else |
| Partner.Partnership.GetName | src/main/java/com/helger/as2lib/partner/Partnership.java:74-81 | returns the current name, which is a non-null string |
| Partner.Partnership.SetSenderID | src/main/java/com/helger/as2lib/partner/Partnership.java:83-95 | the sender IDs become the old ones updated at the key; the key then reads back as the value and is contained exactly when the value is non-null; the other stores and the name are unchanged |
| Partner.Partnership.SetSenderAS2ID | src/main/java/com/helger/as2lib/partner/Partnership.java:97-108 | updates the sender IDs at the AS2-ID key only |
| Partner.Partnership.SetSenderX509Alias | src/main/java/com/helger/as2lib/partner/Partnership.java:110-121 | updates the sender IDs at the X.509-alias key only |
| Partner.Partnership.SetSenderEmail | src/main/java/com/helger/as2lib/partner/Partnership.java:123-134 | updates the sender IDs at the e-mail key only |
| Partner.Partnership.AddSenderIDs | src/main/java/com/helger/as2lib/partner/Partnership.java:136-146 | the sender IDs become the bulk addition of the incoming map; nothing else changes |
| Partner.Partnership.GetSenderID | src/main/java/com/helger/as2lib/partner/Partnership.java:148-160 | gives the stored sender ID when the key is non-null and present, null otherwise |
| Partner.Partnership.GetSenderAS2ID | src/main/java/com/helger/as2lib/partner/Partnership.java:162-171 | gives the sender ID under the AS2-ID key, or null if absent |
| Partner.Partnership.GetSenderX509Alias | src/main/java/com/helger/as2lib/partner/Partnership.java:173-182 | gives the sender ID under the X.509-alias key, or null if absent |
| Partner.Partnership.GetSenderEmail | src/main/java/com/helger/as2lib/partner/Partnership.java:184-193 | gives the sender ID under the e-mail key, or null if absent |
| Partner.Partnership.ContainsSenderID | src/main/java/com/helger/as2lib/partner/Partnership.java:195-206 | a sender ID is contained exactly when its lookup is non-null |
| Partner.Partnership.ContainsSenderAS2ID | src/main/java/com/helger/as2lib/partner/Partnership.java:208-217 | true exactly when the AS2-ID key is among the sender IDs |
| Partner.Partnership.ContainsSenderX509Alias | src/main/java/com/helger/as2lib/partner/Partnership.java:219-228 | true exactly when the X.509-alias key is among the sender IDs |
| Partner.Partnership.ContainsSenderEmail | src/main/java/com/helger/as2lib/partner/Partnership.java:230-239 | true exactly when the e-mail key is among the sender IDs |
| Partner.Partnership.GetAllSenderIDs | src/main/java/com/helger/as2lib/partner/Partnership.java:241-249 | the returned copy answers every lookup as the partnership's sender IDs do; it is a value, so later changes to it cannot reach the partnership |
| Partner.Partnership.SetReceiverID | src/main/java/com/helger/as2lib/partner/Partnership.java:251-263 | the receiver IDs become the old ones updated at the key; the key then reads back as the value and is contained exactly when the value is non-null; the other stores and the name are unchanged |
| Partner.Partnership.SetReceiverAS2ID | src/main/java/com/helger/as2lib/partner/Partnership.java:265-276 | updates the receiver IDs at the AS2-ID key only |
| Partner.Partnership.SetReceiverX509Alias | src/main/java/com/helger/as2lib/partner/Partnership.java:278-289 | updates the receiver IDs at the X.509-alias key only |
| Partner.Partnership.SetReceiverEmail | src/main/java/com/helger/as2lib/partner/Partnership.java:291-302 | updates the receiver IDs at the e-mail key only |
| Partner.Partnership.AddReceiverIDs | src/main/java/com/helger/as2lib/partner/Partnership.java:304-314 | the receiver IDs become the bulk addition of the incoming map; nothing else changes |
| Partner.Partnership.GetReceiverID | src/main/java/com/helger/as2lib/partner/Partnership.java:316-328 | gives the stored receiver ID when the key is non-null and present, null otherwise |
| Partner.Partnership.GetReceiverAS2ID | src/main/java/com/helger/as2lib/partner/Partnership.java:330-339 | gives the receiver ID under the AS2-ID key, or null if absent |
| Partner.Partnership.GetReceiverX509Alias | src/main/java/com/helger/as2lib/partner/Partnership.java:341-350 | gives the receiver ID under the X.509-alias key, or null if absent |
| Partner.Partnership.GetReceiverEmail | src/main/java/com/helger/as2lib/partner/Partnership.java:352-361 | gives the receiver ID under the e-mail key, or null if absent |
| Partner.Partnership.ContainsReceiverID | src/main/java/com/helger/as2lib/partner/Partnership.java:363-374 | a receiver ID is contained exactly when its lookup is non-null |
| Partner.Partnership.ContainsReceiverAS2ID | src/main/java/com/helger/as2lib/partner/Partnership.java:376-385 | true exactly when the AS2-ID key is among the receiver IDs |
| Partner.Partnership.ContainsReceiverX509Alias | src/main/java/com/helger/as2lib/partner/Partnership.java:387-396 | true exactly when the X.509-alias key is among the receiver IDs |
| Partner.Partnership.ContainsReceiverEmail | src/main/java/com/helger/as2lib/partner/Partnership.java:398-407 | true exactly when the e-mail key is among the receiver IDs |
| Partner.Partnership.GetAllReceiverIDs | src/main/java/com/helger/as2lib/partner/Partnership.java:409-417 | the returned copy answers every lookup as the partnership's receiver IDs do |
| Partner.Partnership.SetAttribute | src/main/java/com/helger/as2lib/partner/Partnership.java:419-434 | the attributes become the old ones updated at the key (null removes); it reports a change exactly when the old value differs from the new one, which is exactly when the store changed |
| Partner.Partnership.GetAttribute | src/main/java/com/helger/as2lib/partner/Partnership.java:436-449 | gives the stored attribute when the key is non-null and present, null otherwise |
| Partner.Partnership.GetAttributeOr | src/main/java/com/helger/as2lib/partner/Partnership.java:451-467 | gives the default when the key is null or absent, and the stored attribute otherwise |
| Partner.Partnership.ContainsAttribute | src/main/java/com/helger/as2lib/partner/Partnership.java:469-480 | an attribute is contained exactly when its lookup is non-null |
| Partner.Partnership.GetAllAttributes | src/main/java/com/helger/as2lib/partner/Partnership.java:482-490 | the returned copy answers every lookup as the partnership's attributes do |
| Partner.Partnership.AddAllAttributes | src/main/java/com/helger/as2lib/partner/Partnership.java:492-503 | the attributes become the bulk addition of the incoming map; nothing else changes |
| Partner.Partnership.Matches | src/main/java/com/helger/as2lib/partner/Partnership.java:505-520 | matches holds exactly when compareIDs holds for the sender IDs and for the receiver IDs, that is, when both stores of this partnership are non-empty sub-maps of the other's |
| Partner.Partnership.CompareIDsByIteration | src/main/java/com/helger/as2lib/partner/Partnership.java:533-546 | the early-exit loop over the entries, visited in any order, returns exactly the compareIDs rule |
| Partner.Partnership.CopyFrom | src/main/java/com/helger/as2lib/partner/Partnership.java:548-568 | the name and all three stores become those the source partnership had (overwrite, not merge); copying from itself changes nothing |
| Partner.MatchesItself | src/main/java/com/helger/as2lib/partner/Partnership.java:515-546 | a partnership matches itself exactly when it has both sender IDs and receiver IDs |
| Partner.UnconfiguredNeverMatches | src/main/java/com/helger/as2lib/partner/Partnership.java:515-536 | a partnership without sender IDs or without receiver IDs matches nothing |
| Partner.CopyFromTwice | src/main/java/com/helger/as2lib/partner/Partnership.java:556-568 | copying twice from the same partnership gives the state of copying once |

## Left out

- `toString` (src/main/java/com/helger/as2lib/partner/Partnership.java:570-578) only formats text through an external library.
- `Serializable` and object identity are left out. The one exception is the `aPartnership != this` test in `copyFrom`, which is reference equality on the class here.
- Null arguments that the source rejects with an exception (a null name, a null update key, a null partnership) cannot be written in the model. The types exclude them, so the exception path is a precondition here.
- The `StringMap` and `IStringMap` types and `CPartnershipIDs` are not part of this model.
  - Stores are finite maps, so insertion order is not modelled. Matching does not depend on it.
  - `getAll*` returns the map value, which is a copy by construction.
  - The three well-known keys are the constants `"as2_id"`, `"x509_alias"` and `"email"`. Only the fact that they are distinct is used.
- AddAll: the behaviour of `StringMap.addAttributes` is not part of this model. The comments at lines 136-146 and 492-503 say that unnamed keys are kept, that a null incoming value removes its key, and that a null map is allowed. An incoming non-null value is taken to overwrite the stored one, as a per-entry update. The comment "existing attributes are not altered" is read as "keys not named in the incoming map are kept".
- A bulk map with a null key cannot be expressed: incoming keys are `string`.
- The HTTP outgoing-dump observer interface is not modelled. Its methods are empty defaults or abstract callbacks, with no logic of their own.
