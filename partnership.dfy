/**
 * A partnership: a named record of the identifiers of a sending and a
 * receiving trading partner plus free-form partnership attributes, and the
 * asymmetric rule that decides whether one partnership matches another.
 */
module Partner {
  import opened Wrappers
  import opened StringMaps

  /** The name given to a partnership built without one. */
  const DefaultName: string := "auto-created-dummy"

  /** The three well-known identifier keys; only their distinctness matters here. */
  const PidAs2: string := "as2_id"
  const PidX509Alias: string := "x509_alias"
  const PidEmail: string := "email"

  lemma WellKnownKeysDistinct()
    ensures PidAs2 != PidX509Alias && PidAs2 != PidEmail && PidX509Alias != PidEmail
  {
  }

  /**
   * The matching rule for one pair of identifier stores: `ids` is non-empty
   * and every one of its keys is found in `compareTo` with an equal value.
   * An empty `ids` never matches, so an unconfigured partnership cannot match
   * everything.
   */
  predicate CompareIDs(ids: StringMap, compareTo: StringMap)
    ensures CompareIDs(ids, compareTo) ==> ids != map[]
    ensures CompareIDs(ids, compareTo) ==> ids.Keys <= compareTo.Keys
  {
    |ids| != 0 && forall k :: k in ids ==> Get(compareTo, Some(k)) == Some(ids[k])
  }

  /** The rule is exactly "a non-empty sub-map": the pairs of `ids` are pairs of `compareTo`. */
  lemma CompareIDsIsNonEmptySubMap(ids: StringMap, compareTo: StringMap)
    ensures CompareIDs(ids, compareTo) <==> ids != map[] && ids.Items <= compareTo.Items
  {
    if ids.Items <= compareTo.Items {
      forall k | k in ids ensures Get(compareTo, Some(k)) == Some(ids[k]) {
        assert (k, ids[k]) in ids.Items;
      }
    }
    if CompareIDs(ids, compareTo) {
      forall p | p in ids.Items ensures p in compareTo.Items {
        assert p.0 in ids && ids[p.0] == p.1;
        assert Get(compareTo, Some(p.0)) == Some(p.1);
      }
    }
    if ids == map[] {
      assert |ids| == 0;
    } else {
      var k :| k in ids;
      assert |ids| != 0;
    }
  }

  /** An empty store matches nothing, whatever the other store holds. */
  lemma CompareIDsEmptyNeverMatches(compareTo: StringMap)
    ensures !CompareIDs(map[], compareTo)
  {
  }

  /**
   * Only the keys of `ids` matter: two candidates that agree on them get the
   * same answer, whatever extra keys either of them holds.
   */
  lemma CompareIDsIgnoresOtherKeys(ids: StringMap, c1: StringMap, c2: StringMap)
    requires forall k :: k in ids ==> Get(c1, Some(k)) == Get(c2, Some(k))
    ensures CompareIDs(ids, c1) <==> CompareIDs(ids, c2)
  {
  }

  /**
   * There is no partial match: changing or removing, in the candidate, the
   * value of any one key of `ids` makes the comparison fail.
   */
  lemma CompareIDsNoPartialMatch(ids: StringMap, compareTo: StringMap, key: string, value: Option<string>)
    requires key in ids && value != Some(ids[key])
    ensures !CompareIDs(ids, Set(compareTo, key, value))
  {
  }

  /** A non-empty store matches itself. */
  lemma CompareIDsReflexive(ids: StringMap)
    requires ids != map[]
    ensures CompareIDs(ids, ids)
  {
  }

  /** Matching is transitive. */
  lemma CompareIDsTransitive(a: StringMap, b: StringMap, c: StringMap)
    requires CompareIDs(a, b) && CompareIDs(b, c)
    ensures CompareIDs(a, c)
  {
  }

  /** Two stores that match each other are equal. */
  lemma CompareIDsAntisymmetric(a: StringMap, b: StringMap)
    requires CompareIDs(a, b) && CompareIDs(b, a)
    ensures a == b
  {
  }

  /** Matching is not symmetric: a smaller store matches a larger one, not the other way round. */
  lemma CompareIDsNotSymmetric()
    ensures exists a: StringMap, b: StringMap :: CompareIDs(a, b) && !CompareIDs(b, a)
  {
    var a := map[PidAs2 := "A"];
    var b := map[PidAs2 := "A", PidEmail := "a@example.org"];
    WellKnownKeysDistinct();
    assert CompareIDs(a, b);
    assert Get(a, Some(PidEmail)) != Some(b[PidEmail]);
  }

  /** The whole state of a partnership as a value. */
  datatype PartnershipData = PartnershipData(
    name: string,
    senderIDs: StringMap,
    receiverIDs: StringMap,
    attributes: StringMap)

  class Partnership {
    var name: string
    var senderIDs: StringMap
    var receiverIDs: StringMap
    var attributes: StringMap

    function Data(): PartnershipData
      reads this
    {
      PartnershipData(name, senderIDs, receiverIDs, attributes)
    }

    /** A partnership with the given (non-null) name and three empty stores. */
    constructor (name: string)
      ensures Data() == PartnershipData(name, map[], map[], map[])
    {
      this.name := name;
      senderIDs, receiverIDs, attributes := map[], map[], map[];
    }

    /** A partnership named `DefaultName` with three empty stores. */
    constructor Default()
      ensures Data() == PartnershipData(DefaultName, map[], map[], map[])
    {
      name := DefaultName;
      senderIDs, receiverIDs, attributes := map[], map[], map[];
    }

    /** Renames the partnership; the new name may not be null. */
    method SetName(newName: string)
      modifies this`name
      ensures name == newName
    {
      name := newName;
    }

    function GetName(): (r: string)
      reads this
      ensures r == name
    {
      name
    }

    // ---------------------------------------------------------------- sender IDs

    /** Sets one sender ID; a null value removes it. No other key and no other store changes. */
    method SetSenderID(key: string, value: Option<string>)
      modifies this`senderIDs
      ensures senderIDs == Set(old(senderIDs), key, value)
      ensures GetSenderID(Some(key)) == value && (ContainsSenderID(Some(key)) <==> value.Some?)
    {
      senderIDs := Set(senderIDs, key, value);
    }

    method SetSenderAS2ID(value: Option<string>)
      modifies this`senderIDs
      ensures senderIDs == Set(old(senderIDs), PidAs2, value)
    {
      SetSenderID(PidAs2, value);
    }

    method SetSenderX509Alias(value: Option<string>)
      modifies this`senderIDs
      ensures senderIDs == Set(old(senderIDs), PidX509Alias, value)
    {
      SetSenderID(PidX509Alias, value);
    }

    method SetSenderEmail(value: Option<string>)
      modifies this`senderIDs
      ensures senderIDs == Set(old(senderIDs), PidEmail, value)
    {
      SetSenderID(PidEmail, value);
    }

    /** Applies every incoming entry to the sender IDs; a null map changes nothing. */
    method AddSenderIDs(incoming: Option<map<string, Option<string>>>)
      modifies this`senderIDs
      ensures senderIDs == AddAll(old(senderIDs), incoming)
    {
      senderIDs := AddAll(senderIDs, incoming);
    }

    /** The sender ID stored under `key`; null for a null or absent key. */
    function GetSenderID(key: Option<string>): (r: Option<string>)
      reads this
      ensures r.Some? <==> key.Some? && key.value in senderIDs
      ensures r.Some? ==> r.value == senderIDs[key.value]
    {
      Get(senderIDs, key)
    }

    function GetSenderAS2ID(): (r: Option<string>)
      reads this
      ensures r.Some? <==> PidAs2 in senderIDs
      ensures r.Some? ==> r.value == senderIDs[PidAs2]
    {
      GetSenderID(Some(PidAs2))
    }

    function GetSenderX509Alias(): (r: Option<string>)
      reads this
      ensures r.Some? <==> PidX509Alias in senderIDs
      ensures r.Some? ==> r.value == senderIDs[PidX509Alias]
    {
      GetSenderID(Some(PidX509Alias))
    }

    function GetSenderEmail(): (r: Option<string>)
      reads this
      ensures r.Some? <==> PidEmail in senderIDs
      ensures r.Some? ==> r.value == senderIDs[PidEmail]
    {
      GetSenderID(Some(PidEmail))
    }

    /** Whether a sender ID is stored under `key`; false for a null key. */
    predicate ContainsSenderID(key: Option<string>)
      reads this
      ensures ContainsSenderID(key) <==> GetSenderID(key).Some?
    {
      Contains(senderIDs, key)
    }

    predicate ContainsSenderAS2ID()
      reads this
      ensures ContainsSenderAS2ID() <==> PidAs2 in senderIDs
    {
      ContainsSenderID(Some(PidAs2))
    }

    predicate ContainsSenderX509Alias()
      reads this
      ensures ContainsSenderX509Alias() <==> PidX509Alias in senderIDs
    {
      ContainsSenderID(Some(PidX509Alias))
    }

    predicate ContainsSenderEmail()
      reads this
      ensures ContainsSenderEmail() <==> PidEmail in senderIDs
    {
      ContainsSenderID(Some(PidEmail))
    }

    /** A copy of the sender IDs that answers every lookup as the partnership does. */
    function GetAllSenderIDs(): (r: StringMap)
      reads this
      ensures forall k :: Get(r, k) == GetSenderID(k)
    {
      senderIDs
    }

    // -------------------------------------------------------------- receiver IDs

    /** Sets one receiver ID; a null value removes it. No other key and no other store changes. */
    method SetReceiverID(key: string, value: Option<string>)
      modifies this`receiverIDs
      ensures receiverIDs == Set(old(receiverIDs), key, value)
      ensures GetReceiverID(Some(key)) == value && (ContainsReceiverID(Some(key)) <==> value.Some?)
    {
      receiverIDs := Set(receiverIDs, key, value);
    }

    method SetReceiverAS2ID(value: Option<string>)
      modifies this`receiverIDs
      ensures receiverIDs == Set(old(receiverIDs), PidAs2, value)
    {
      SetReceiverID(PidAs2, value);
    }

    method SetReceiverX509Alias(value: Option<string>)
      modifies this`receiverIDs
      ensures receiverIDs == Set(old(receiverIDs), PidX509Alias, value)
    {
      SetReceiverID(PidX509Alias, value);
    }

    method SetReceiverEmail(value: Option<string>)
      modifies this`receiverIDs
      ensures receiverIDs == Set(old(receiverIDs), PidEmail, value)
    {
      SetReceiverID(PidEmail, value);
    }

    /** Applies every incoming entry to the receiver IDs; a null map changes nothing. */
    method AddReceiverIDs(incoming: Option<map<string, Option<string>>>)
      modifies this`receiverIDs
      ensures receiverIDs == AddAll(old(receiverIDs), incoming)
    {
      receiverIDs := AddAll(receiverIDs, incoming);
    }

    /** The receiver ID stored under `key`; null for a null or absent key. */
    function GetReceiverID(key: Option<string>): (r: Option<string>)
      reads this
      ensures r.Some? <==> key.Some? && key.value in receiverIDs
      ensures r.Some? ==> r.value == receiverIDs[key.value]
    {
      Get(receiverIDs, key)
    }

    function GetReceiverAS2ID(): (r: Option<string>)
      reads this
      ensures r.Some? <==> PidAs2 in receiverIDs
      ensures r.Some? ==> r.value == receiverIDs[PidAs2]
    {
      GetReceiverID(Some(PidAs2))
    }

    function GetReceiverX509Alias(): (r: Option<string>)
      reads this
      ensures r.Some? <==> PidX509Alias in receiverIDs
      ensures r.Some? ==> r.value == receiverIDs[PidX509Alias]
    {
      GetReceiverID(Some(PidX509Alias))
    }

    function GetReceiverEmail(): (r: Option<string>)
      reads this
      ensures r.Some? <==> PidEmail in receiverIDs
      ensures r.Some? ==> r.value == receiverIDs[PidEmail]
    {
      GetReceiverID(Some(PidEmail))
    }

    /** Whether a receiver ID is stored under `key`; false for a null key. */
    predicate ContainsReceiverID(key: Option<string>)
      reads this
      ensures ContainsReceiverID(key) <==> GetReceiverID(key).Some?
    {
      Contains(receiverIDs, key)
    }

    predicate ContainsReceiverAS2ID()
      reads this
      ensures ContainsReceiverAS2ID() <==> PidAs2 in receiverIDs
    {
      ContainsReceiverID(Some(PidAs2))
    }

    predicate ContainsReceiverX509Alias()
      reads this
      ensures ContainsReceiverX509Alias() <==> PidX509Alias in receiverIDs
    {
      ContainsReceiverID(Some(PidX509Alias))
    }

    predicate ContainsReceiverEmail()
      reads this
      ensures ContainsReceiverEmail() <==> PidEmail in receiverIDs
    {
      ContainsReceiverID(Some(PidEmail))
    }

    /** A copy of the receiver IDs that answers every lookup as the partnership does. */
    function GetAllReceiverIDs(): (r: StringMap)
      reads this
      ensures forall k :: Get(r, k) == GetReceiverID(k)
    {
      receiverIDs
    }

    // ---------------------------------------------------------------- attributes

    /**
     * Sets one attribute; a null value removes it. Reports whether the store
     * changed, which is exactly when the value written differs from what was
     * there before.
     */
    method SetAttribute(key: string, value: Option<string>) returns (changed: bool)
      modifies this`attributes
      ensures attributes == Set(old(attributes), key, value)
      ensures GetAttribute(Some(key)) == value && (ContainsAttribute(Some(key)) <==> value.Some?)
      ensures changed <==> old(GetAttribute(Some(key))) != value
      ensures changed <==> attributes != old(attributes)
    {
      changed := Get(attributes, Some(key)) != value;
      attributes := Set(attributes, key, value);
    }

    /** The attribute stored under `key`; null for a null or absent key. */
    function GetAttribute(key: Option<string>): (r: Option<string>)
      reads this
      ensures r.Some? <==> key.Some? && key.value in attributes
      ensures r.Some? ==> r.value == attributes[key.value]
    {
      Get(attributes, key)
    }

    /** The attribute stored under `key`, or `default` when the key is null or absent. */
    function GetAttributeOr(key: Option<string>, default: Option<string>): (r: Option<string>)
      reads this
      ensures key.None? || key.value !in attributes ==> r == default
      ensures key.Some? && key.value in attributes ==> r == Some(attributes[key.value])
    {
      GetOr(attributes, key, default)
    }

    /** Whether an attribute is stored under `key`; false for a null key. */
    predicate ContainsAttribute(key: Option<string>)
      reads this
      ensures ContainsAttribute(key) <==> GetAttribute(key).Some?
    {
      Contains(attributes, key)
    }

    /** A copy of the attributes that answers every lookup as the partnership does. */
    function GetAllAttributes(): (r: StringMap)
      reads this
      ensures forall k :: Get(r, k) == GetAttribute(k)
    {
      attributes
    }

    /** Applies every incoming entry to the attributes; a null map changes nothing. */
    method AddAllAttributes(incoming: Option<map<string, Option<string>>>)
      modifies this`attributes
      ensures attributes == AddAll(old(attributes), incoming)
    {
      attributes := AddAll(attributes, incoming);
    }

    // ------------------------------------------------------------------ matching

    /**
     * This partnership matches `p` when its sender IDs and its receiver IDs
     * are each a non-empty sub-map of the corresponding store of `p`.
     */
    function Matches(p: Partnership): (r: bool)
      reads this, p
      ensures r <==> CompareIDs(senderIDs, p.senderIDs) && CompareIDs(receiverIDs, p.receiverIDs)
      ensures r <==> && senderIDs != map[] && senderIDs.Items <= p.senderIDs.Items
                     && receiverIDs != map[] && receiverIDs.Items <= p.receiverIDs.Items
    {
      CompareIDsIsNonEmptySubMap(senderIDs, p.senderIDs);
      CompareIDsIsNonEmptySubMap(receiverIDs, p.receiverIDs);
      CompareIDs(senderIDs, p.senderIDs) && CompareIDs(receiverIDs, p.receiverIDs)
    }

    /**
     * The comparison as the source runs it: reject an empty `ids`, then walk
     * its entries in iteration order `order` and stop at the first key whose
     * value in `compareTo` is missing or different. The answer is the same
     * for every order in which the entries may be visited.
     */
    method CompareIDsByIteration(ids: StringMap, compareTo: StringMap, order: seq<string>)
      returns (r: bool)
      requires forall k :: k in ids <==> k in order
      ensures r == CompareIDs(ids, compareTo)
    {
      if |ids| == 0 {
        return false;
      }
      var i := 0;
      while i < |order|
        invariant 0 <= i <= |order|
        invariant forall j :: 0 <= j < i ==> Get(compareTo, Some(order[j])) == Some(ids[order[j]])
      {
        var key := order[i];
        var currentValue := ids[key];
        var compareValue := Get(compareTo, Some(key));
        if Some(currentValue) != compareValue {
          return false;
        }
        i := i + 1;
      }
      forall k | k in ids ensures Get(compareTo, Some(k)) == Some(ids[k]) {
        var j :| 0 <= j < |order| && order[j] == k;
      }
      return true;
    }

    /**
     * Overwrites the name and all three stores with those of `p` (not a
     * merge). Copying from itself changes nothing.
     */
    method CopyFrom(p: Partnership)
      modifies this
      ensures Data() == old(p.Data())
      ensures p == this ==> unchanged(this)
    {
      if p != this {
        name := p.GetName();
        senderIDs := p.senderIDs;
        receiverIDs := p.receiverIDs;
        attributes := p.attributes;
      }
    }
  }

  /** A partnership matches itself exactly when it has sender IDs and receiver IDs. */
  lemma MatchesItself(p: Partnership)
    ensures p.Matches(p) <==> p.senderIDs != map[] && p.receiverIDs != map[]
  {
  }

  /** A partnership with no sender IDs or no receiver IDs matches nothing. */
  lemma UnconfiguredNeverMatches(p: Partnership, q: Partnership)
    requires p.senderIDs == map[] || p.receiverIDs == map[]
    ensures !p.Matches(q)
  {
  }

  /** Copying twice from the same partnership leaves the state of copying once. */
  method CopyFromTwice(a: Partnership, b: Partnership)
    modifies a
    ensures a.Data() == old(b.Data())
  {
    a.CopyFrom(b);
    ghost var once := a.Data();
    a.CopyFrom(b);
    assert a.Data() == once;
  }
}
