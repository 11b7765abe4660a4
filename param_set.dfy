/** The parameter registry `OfxParamSetStruct`: an exact-size array of
    parameter pointers, its length, and a non-owning link to the effect's
    property set. */
module ParameterSet {
  import opened OfxTypes
  import opened Parameter

  /** The name a record carries, as a C string (None for a NULL name). */
  function NameOf(p: Param): Option<string>
    reads p
  {
    if p.name.Some? then Some(p.name.value.text) else None
  }

  /** The names of a sequence of records, position by position. */
  ghost function NamesOf(ps: seq<Param>): (r: seq<Option<string>>)
    reads ps
    ensures |r| == |ps|
    ensures forall k :: 0 <= k < |ps| ==> r[k] == NameOf(ps[k])
  {
    seq(|ps|, k requires 0 <= k < |ps| reads ps => NameOf(ps[k]))
  }

  /** The index find_parameter returns: the first position holding `query`, or -1. */
  function Lookup(names: seq<Option<string>>, query: string): (i: int)
    ensures -1 <= i < |names|
    ensures i != -1 ==> names[i] == Some(query)
  {
    if names == [] then -1
    else if names[0] == Some(query) then 0
    else
      var r := Lookup(names[1..], query);
      if r == -1 then -1 else r + 1
  }

  /** Lookup finds the smallest matching index, and -1 exactly when there is none. */
  lemma {:induction false} LookupIsFirst(names: seq<Option<string>>, query: string)
    ensures Lookup(names, query) == -1 <==> forall k :: 0 <= k < |names| ==> names[k] != Some(query)
    ensures forall k :: 0 <= k < Lookup(names, query) ==> names[k] != Some(query)
  {
    if names != [] && names[0] != Some(query) {
      LookupIsFirst(names[1..], query);
      assert forall k :: 1 <= k < |names| ==> names[k] == names[1..][k - 1];
    }
  }

  /** A position holding `query` with no earlier one is what Lookup returns. */
  lemma LookupAt(names: seq<Option<string>>, query: string, i: int)
    requires 0 <= i < |names| && names[i] == Some(query)
    requires forall k :: 0 <= k < i ==> names[k] != Some(query)
    ensures Lookup(names, query) == i
  {
    LookupIsFirst(names, query);
  }

  /** No two records share a name. */
  ghost predicate UniqueNames(names: seq<Option<string>>)
  {
    forall j, k :: 0 <= j < k < |names| && names[j].Some? ==> names[j] != names[k]
  }

  /** Appending an absent name keeps the names unique. */
  lemma AppendAbsentKeepsUnique(names: seq<Option<string>>, query: string)
    requires UniqueNames(names) && Lookup(names, query) == -1
    ensures UniqueNames(names + [Some(query)])
  {
    LookupIsFirst(names, query);
    var r := names + [Some(query)];
    forall j, k | 0 <= j < k < |r| && r[j].Some?
      ensures r[j] != r[k]
    {
      if k < |names| {
        assert r[j] == names[j] && r[k] == names[k];
      } else {
        assert r[j] == names[j];
      }
    }
  }

  /** In a registry with unique names, the lookup of a present name is its position. */
  lemma LookupUnique(names: seq<Option<string>>, k: int)
    requires UniqueNames(names) && 0 <= k < |names| && names[k].Some?
    ensures Lookup(names, names[k].value) == k
  {
    LookupIsFirst(names, names[k].value);
  }

  /** Every position carries a name. */
  predicate AllNamed(names: seq<Option<string>>)
  {
    forall k :: 0 <= k < |names| ==> names[k].Some?
  }

  lemma AllNamedAppend(names: seq<Option<string>>, query: string)
    requires AllNamed(names)
    ensures AllNamed(names + [Some(query)])
  {
  }

  /** Every record of `ps` keeps the record invariant. */
  ghost predicate AllValid(ps: seq<Param>)
    reads ps
  {
    forall k :: 0 <= k < |ps| ==> ps[k].Valid()
  }

  /** `pos` maps every record of `ps` back to its position, so no record
      appears at two positions. */
  ghost predicate Indexes(ps: seq<Param>, pos: map<Param, int>)
  {
    forall k :: 0 <= k < |ps| ==> ps[k] in pos && pos[ps[k]] == k
  }

  /** Appending valid records to valid records keeps them all valid. */
  lemma AppendKeeps(a: seq<Param>, b: seq<Param>)
    requires AllValid(a) && AllValid(b)
    ensures AllValid(a + b)
  {
  }

  /** The loop of append_parameters: a `total`-entry array whose first `oldNum`
      entries are the pointers of `oldParameters` (the records `olds`) and whose
      other entries point to fresh records, each just allocated and passed to
      init_parameter, and indexed by `pos` after those of `olds`. */
  method GrowArray(oldParameters: array?<Param?>, oldNum: int, total: int,
                   ghost olds: seq<Param>, ghost pos0: map<Param, int>)
    returns (arr: array<Param?>, ghost added: seq<Param>, ghost pos: map<Param, int>)
    requires 0 <= oldNum <= total && |olds| == oldNum
    requires oldParameters == null ==> oldNum == 0
    requires oldParameters != null ==>
               oldParameters.Length == oldNum &&
               forall k :: 0 <= k < oldNum ==> oldParameters[k] == olds[k]
    requires Indexes(olds, pos0)
    ensures fresh(arr) && arr.Length == total
    ensures |added| == total - oldNum
    ensures forall k :: 0 <= k < total ==> arr[k] == (olds + added)[k]
    ensures forall k :: 0 <= k < |added| ==> fresh(added[k]) && added[k].State() == InitialState()
    ensures AllValid(added)
    ensures Indexes(olds + added, pos)
  {
    arr := new Param?[total];
    added := [];
    ghost var all: seq<Param> := olds;
    pos := pos0;
    var i := 0;
    while i < total
      modifies arr
      invariant 0 <= i <= total
      invariant |added| == if i <= oldNum then 0 else i - oldNum
      invariant all == olds + added
      invariant forall k :: 0 <= k < i ==> arr[k] == all[k]
      invariant forall k :: 0 <= k < |added| ==>
                  fresh(added[k]) && added[k].State() == InitialState()
      invariant Indexes(olds, pos)
      invariant forall k :: 0 <= k < |added| ==> added[k] in pos && pos[added[k]] == oldNum + k
    {
      if i < oldNum {
        arr[i] := oldParameters[i];
      } else {
        var p := new Param();
        arr[i] := p;
        added := added + [p];
        all := all + [p];
        pos := pos[p := i];
      }
      i := i + 1;
    }
    assert forall k :: 0 <= k < |all| ==> all[k] in pos && pos[all[k]] == k by {
      forall k | 0 <= k < |all|
        ensures all[k] in pos && pos[all[k]] == k
      {
        if k >= oldNum {
          assert all[k] == added[k - oldNum];
        }
      }
    }
  }

  /** The loop of deep_copy_parameter_set: deep-copy each record of `srcs` into
      the record of `dsts` at the same position, reaching both through the
      registries' arrays. */
  method CopyRecords(dstArr: array?<Param?>, srcArr: array?<Param?>, n: int,
                     ghost dsts: seq<Param>, ghost srcs: seq<Param>)
    requires 0 <= n == |dsts| == |srcs|
    requires dstArr == null ==> n == 0
    requires srcArr == null ==> n == 0
    requires dstArr != null ==> dstArr.Length == n && forall k :: 0 <= k < n ==> dstArr[k] == dsts[k]
    requires srcArr != null ==> srcArr.Length == n && forall k :: 0 <= k < n ==> srcArr[k] == srcs[k]
    requires AllValid(srcs)
    requires forall j, k :: 0 <= j < k < n ==> dsts[j] != dsts[k]
    requires forall j, k :: 0 <= j < n && 0 <= k < n ==> dsts[j] != srcs[k]
    modifies dsts
    ensures AllValid(dsts)
    ensures forall k :: 0 <= k < n ==> CopiedFrom(dsts[k].State(), old(srcs[k].State()))
  {
    var i := 0;
    while i < n
      invariant 0 <= i <= n
      invariant forall k :: 0 <= k < n ==> srcs[k].State() == old(srcs[k].State())
      invariant forall k :: 0 <= k < i ==> CopiedFrom(dsts[k].State(), old(srcs[k].State()))
    {
      dstArr[i].CopyFrom(srcArr[i]);
      i := i + 1;
    }
    forall k | 0 <= k < n
      ensures dsts[k].Valid()
    {
      CopyOfPreservesContent(old(srcs[k].State()));
    }
  }

  /** Appending a valid record to records left untouched keeps them all valid
      and appends its name to their names. */
  twostate lemma AppendOneKeeps(ps: seq<Param>, new p: Param)
    requires old(AllValid(ps))
    requires forall k :: 0 <= k < |ps| ==> unchanged(ps[k])
    requires p.Valid()
    ensures AllValid(ps + [p])
    ensures NamesOf(ps + [p]) == old(NamesOf(ps)) + [NameOf(p)]
  {
    var c := ps + [p];
    assert forall k :: 0 <= k < |ps| ==> c[k] == ps[k];
  }

  /** Rewriting one record `p` of `ps`, and no other record of them, keeps
      them all valid when `p` is. */
  twostate lemma RewriteOneKeeps(new ps: seq<Param>, new p: Param)
    requires old(allocated(ps)) && old(allocated(p)) && old(AllValid(ps))
    requires forall k :: 0 <= k < |ps| && ps[k] != p ==> unchanged(ps[k])
    requires p.Valid()
    ensures AllValid(ps)
    ensures forall k :: 0 <= k < |ps| && ps[k] != p ==> ps[k].State() == old(ps[k].State())
    ensures p.name == old(p.name) ==> NamesOf(ps) == old(NamesOf(ps))
  {
  }

  /** A sequence one longer than its prefix `t` is `t` followed by its last element. */
  lemma PrefixAndLast<T>(s: seq<T>, t: seq<T>)
    requires |s| == |t| + 1 && s[..|t|] == t
    ensures s == t + [s[|t|]]
  {
  }

  /** Looking up a name appended to names lacking it finds the appended position. */
  lemma LookupAppended(names: seq<Option<string>>, query: string)
    requires Lookup(names, query) == -1
    ensures Lookup(names + [Some(query)], query) == |names|
  {
    LookupIsFirst(names, query);
    var r := names + [Some(query)];
    assert forall k :: 0 <= k < |names| ==> r[k] == names[k];
    LookupAt(r, query, |names|);
  }

  class ParamSet {
    var parameters: array?<Param?>   // NULL after init and free
    var numParameters: int
    var effectProperties: PropertySetHandle

    /** The records the array points to, in order: the registry owns them. */
    ghost var Entries: seq<Param>
    /** The position of each record in Entries. */
    ghost var Position: map<Param, int>

    ghost predicate Valid()
      reads this, parameters, Entries
    {
      Shape() && AllValid(Entries)
    }

    /** The array points to exactly the records of Entries, in order, each once. */
    ghost predicate Shape()
      reads this, parameters
    {
      0 <= numParameters <= INT_MAX && |Entries| == numParameters &&
      (parameters == null ==> numParameters == 0) &&
      (parameters != null ==>
         parameters.Length == numParameters &&
         forall k :: 0 <= k < numParameters ==> parameters[k] == Entries[k]) &&
      Indexes(Entries, Position)
    }

    /** Every record has a name, so find_parameter's strcmp never meets NULL. */
    ghost predicate Named()
      reads this, Entries
    {
      AllNamed(Names())
    }

    ghost function Names(): (r: seq<Option<string>>)
      reads this, Entries
    {
      NamesOf(Entries)
    }

    constructor ()
      ensures Valid()
      ensures Entries == [] && parameters == null && effectProperties == NullPropertySet
    {
      new;
      Init();
    }

    /** init_parameter_set: forget the contents, without releasing them. */
    method Init()
      modifies this
      ensures Valid()
      ensures Entries == [] && parameters == null && effectProperties == NullPropertySet
    {
      numParameters := 0;
      parameters := null;
      effectProperties := NullPropertySet;
      Entries := [];
      Position := map[];
    }

    /** find_parameter: linear scan for the first record named `query`. */
    method Find(query: string) returns (i: int)
      requires Valid() && Named()
      ensures i == Lookup(Names(), query)
      ensures i == -1 <==> forall k :: 0 <= k < |Entries| ==> NameOf(Entries[k]) != Some(query)
      ensures i != -1 ==> 0 <= i < |Entries| && NameOf(Entries[i]) == Some(query)
    {
      LookupIsFirst(Names(), query);
      i := 0;
      while i < numParameters
        invariant 0 <= i <= numParameters
        invariant forall k :: 0 <= k < i ==> Names()[k] != Some(query)
      {
        if parameters[i].name.value.text == query {
          LookupAt(Names(), query, i);
          return;
        }
        i := i + 1;
      }
      i := -1;
    }

    /** append_parameters: replace the array with one `count` entries longer that
        keeps the old records in place and points to fresh initialised records
        after them; the old array is released. */
    method Append(count: int)
      requires Valid()
      requires 0 <= count && numParameters + count <= INT_MAX
      modifies this
      ensures Valid()
      ensures numParameters == old(numParameters) + count
      ensures parameters != null && fresh(parameters)
      ensures Entries[..old(numParameters)] == old(Entries)
      ensures forall k :: old(numParameters) <= k < numParameters ==>
                fresh(Entries[k]) && Entries[k].State() == InitialState()
      ensures effectProperties == old(effectProperties)
    {
      var oldNum := numParameters;
      var oldParameters := parameters;
      numParameters := numParameters + count;
      var arr;
      ghost var added, pos;
      arr, added, pos := GrowArray(oldParameters, oldNum, numParameters, Entries, Position);
      AppendKeeps(Entries, added);
      parameters := arr;
      Entries := Entries + added;
      Position := pos;
    }

    /** ensure_parameter: the index of the record named `query`, appending one
        named record when there is none. */
    method Ensure(query: string) returns (i: int)
      requires Valid() && Named()
      requires Lookup(Names(), query) == -1 ==> numParameters < INT_MAX
      modifies this
      ensures Valid() && Named()
      ensures i == Lookup(Names(), query) && 0 <= i < |Entries|
      ensures old(Lookup(Names(), query)) != -1 ==> i == old(Lookup(Names(), query)) && unchanged(this)
      ensures old(Lookup(Names(), query)) == -1 ==>
                i == old(numParameters) && numParameters == old(numParameters) + 1 &&
                Entries[..i] == old(Entries) && fresh(Entries[i]) &&
                Entries[i].State() == InitialState().(name := Some(CStringBuffer(query)))
      ensures Names() == if old(Lookup(Names(), query)) == -1 then old(Names()) + [Some(query)] else old(Names())
      ensures effectProperties == old(effectProperties)
    {
      i := Find(query);
      if i == -1 {
        i := AppendNamed(query);
      }
    }

    /** ensure_parameter is idempotent: a second call with the same name returns
        the same index and changes nothing, so the two calls together do what one
        call does. */
    method EnsureTwice(query: string) returns (i: int, j: int)
      requires Valid() && Named()
      requires Lookup(Names(), query) == -1 ==> numParameters < INT_MAX
      modifies this
      ensures i == j && 0 <= i < |Entries| && NameOf(Entries[i]) == Some(query)
      ensures Valid() && Named()
      ensures numParameters == old(numParameters) + (if old(Lookup(Names(), query)) == -1 then 1 else 0)
      ensures Entries[..old(numParameters)] == old(Entries)
      ensures Names() == if old(Lookup(Names(), query)) == -1 then old(Names()) + [Some(query)] else old(Names())
      ensures old(Lookup(Names(), query)) != -1 ==> unchanged(this)
      ensures old(Lookup(Names(), query)) == -1 ==>
                fresh(Entries[i]) && Entries[i].State() == InitialState().(name := Some(CStringBuffer(query)))
    {
      i := Ensure(query);
      label First:
      j := Ensure(query);
      assert unchanged@First(this);
    }

    /** The not-found branch of ensure_parameter: append one record
        and give it the name `query`. */
    method AppendNamed(query: string) returns (i: int)
      requires Valid() && Named()
      requires Lookup(Names(), query) == -1 && numParameters < INT_MAX
      modifies this
      ensures Valid() && Named()
      ensures i == old(numParameters) && numParameters == old(numParameters) + 1 && |Entries| == i + 1
      ensures Entries[..i] == old(Entries) && fresh(Entries[i])
      ensures Entries[i].State() == InitialState().(name := Some(CStringBuffer(query)))
      ensures Names() == old(Names()) + [Some(query)]
      ensures i == Lookup(Names(), query)
      ensures effectProperties == old(effectProperties)
    {
      ghost var oldEntries := Entries;
      Append(1);
      i := numParameters - 1;
      Rename(i, query);
      PrefixAndLast(Entries, oldEntries);
      AppendOneKeeps(oldEntries, Entries[i]);
      LookupAppended(old(Names()), query);
      AllNamedAppend(old(Names()), query);
    }

    /** The naming step of ensure_parameter: give the record at position `i` a fresh buffer holding
        `query`; the registry stays valid and no other record changes. */
    method Rename(i: int, query: string)
      requires Valid() && 0 <= i < |Entries|
      modifies Entries[i]
      ensures Valid()
      ensures Entries[i].State() == old(Entries[i].State()).(name := Some(CStringBuffer(query)))
    {
      label Before:
      parameters[i].name := Some(CStringBuffer(query));
      assert Entries[i] == parameters[i];
      RewriteOneKeeps@Before(Entries, Entries[i]);
    }

    /** parameter_set_type on the record at position `i`: the registry stays
        valid, keeps its names, and no other record changes. */
    method Retype(i: int, t: ParamType)
      requires Valid() && 0 <= i < |Entries|
      modifies Entries[i]
      ensures Valid() && Names() == old(Names())
      ensures Entries[i].ptype == t
      ensures Entries[i].name == old(Entries[i].name) && Entries[i].props == old(Entries[i].props)
      ensures |Entries[i].value| == ValueSlots
      ensures old(Entries[i].ptype) == t ==> Entries[i].value == old(Entries[i].value)
      ensures old(Entries[i].ptype) != t && t == TypeString ==> Entries[i].value[0] == AsChar(Some(CBuffer("", 1)))
      ensures old(Entries[i].ptype) == TypeString && t != TypeString ==> Entries[i].value[0] == AsChar(None)
      ensures old(Entries[i].ptype) != TypeString && t != TypeString ==> Entries[i].value[0] == old(Entries[i].value[0])
      ensures forall s :: 1 <= s < ValueSlots ==> Entries[i].value[s] == old(Entries[i].value[s])
      ensures forall k :: 0 <= k < |Entries| && k != i ==> Entries[k].State() == old(Entries[k].State())
    {
      label Before:
      parameters[i].SetType(t);
      assert Entries[i] == parameters[i];
      RewriteOneKeeps@Before(Entries, Entries[i]);
    }

    /** free_parameter_set: release every record and the array. The releases are
        modelled as the registry dropping ownership of what it held. */
    method Free()
      requires Valid()
      modifies this
      ensures Valid()
      ensures numParameters == 0 && Entries == [] && parameters == null
      ensures effectProperties == old(effectProperties)
    {
      numParameters := 0;
      if parameters != null {
        parameters := null;
      }
      Entries := [];
    }

    /** deep_copy_parameter_set: re-initialise this registry (without releasing
        what it held), append as many records as `source` has, deep-copy them
        position by position and share the effect property-set link. */
    method DeepCopyFrom(source: ParamSet)
      requires source.Valid()
      modifies this
      ensures Valid()
      ensures this != source ==>
                numParameters == old(source.numParameters) &&
                effectProperties == old(source.effectProperties) &&
                (forall k :: 0 <= k < numParameters ==>
                   fresh(Entries[k]) &&
                   CopiedFrom(Entries[k].State(), old(source.Entries[k].State())))
      ensures this == source ==> Entries == [] && effectProperties == NullPropertySet
    {
      Init();
      AppendCopies(source);
      effectProperties := source.effectProperties;
    }

    /** The append and copy loop of deep_copy_parameter_set, on an emptied registry: append
        as many fresh records as `source` has and deep-copy each record of
        `source` into the one at the same position. */
    method AppendCopies(source: ParamSet)
      requires Valid() && Entries == [] && source.Valid()
      modifies this
      ensures Valid()
      ensures numParameters == old(source.numParameters)
      ensures forall k :: 0 <= k < numParameters ==>
                fresh(Entries[k]) && CopiedFrom(Entries[k].State(), old(source.Entries[k].State()))
      ensures effectProperties == old(effectProperties) && source.effectProperties == old(source.effectProperties)
    {
      Append(source.numParameters);
      CopyRecords(parameters, source.parameters, numParameters, Entries, source.Entries);
    }
  }
}
