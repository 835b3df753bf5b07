/**
 * `CvarManager`: a table of cvars keyed by their lower-cased alias, with
 * typed failures for duplicate and unmanaged cvars, and a table of string
 * serializers by value class.
 */
module CvarRegistry {
  import opened Wrappers
  import opened JavaLang

  /**
   * The cvar type this manager handles. Its source is not part of this
   * model; the manager reads only its alias and its value class, and
   * compares cvars with `equals`, taken here as identity.
   */
  class Cvar {
    const alias: string
    const valueClass: JavaClass

    constructor (alias: string, valueClass: JavaClass)
      ensures this.alias == alias && this.valueClass == valueClass
    {
      this.alias := alias;
      this.valueClass := valueClass;
    }
  }

  /** The string serializers; the four built-in ones and any other. */
  datatype Serializer =
    | ObjectStringSerializer | BooleanStringSerializer | IntegerStringSerializer | DoubleStringSerializer
    | CustomSerializer(id: nat)

  /** `DuplicateCvarException` and `UnmanagedCvarException`, each carrying its cvar. */
  datatype CvarError = DuplicateCvar(cvar: Cvar) | UnmanagedCvar(cvar: Cvar)

  /** `DEFAULT_SERIALIZERS`. */
  const DEFAULT_SERIALIZERS: map<JavaClass, Serializer> := map[
    StringClass := ObjectStringSerializer,
    BooleanClass := BooleanStringSerializer,
    IntegerClass := IntegerStringSerializer,
    DoubleClass := DoubleStringSerializer
  ]

  lemma DefaultSerializersCoverFourClasses(t: JavaClass)
    ensures t in DEFAULT_SERIALIZERS <==> t in {StringClass, BooleanClass, IntegerClass, DoubleClass}
  {
  }

  class CvarManager {
    /** `CVARS`, keyed by lower-cased alias. */
    var cvars: map<string, Cvar>
    /** `SERIALIZERS`. */
    var serializers: map<JavaClass, Serializer>
    /** The cvars this manager has subscribed to as a change listener, in order. */
    var subscriptions: seq<Cvar>

    /** Every entry is stored under the lower-cased alias of its cvar. */
    ghost predicate Valid()
      reads this
    {
      forall k :: k in cvars ==> k == ToLower(cvars[k].alias)
    }

    constructor ()
      ensures Valid()
      ensures cvars == map[] && serializers == DEFAULT_SERIALIZERS && subscriptions == []
    {
      cvars := map[];
      serializers := DEFAULT_SERIALIZERS;
      subscriptions := [];
    }

    /** `beforeChanged(cvar, from, to)`: lets every change through as proposed. */
    function BeforeChanged<T>(cvar: Cvar, from: T, to: T): (r: T)
      ensures r == to
    {
      to
    }

    /** `isManagingCvar(cvar)`: the entry under the cvar's lower-cased alias is this very cvar. */
    predicate IsManagingCvar(cvar: Cvar)
      reads this
      ensures IsManagingCvar(cvar) ==> ContainsAlias(cvar.alias) && cvars[ToLower(cvar.alias)] == cvar
    {
      var key := ToLower(cvar.alias);
      key in cvars && cvars[key] == cvar
    }

    /** `containsAlias(alias)`. */
    predicate ContainsAlias(alias: string)
      reads this
    {
      ToLower(alias) in cvars
    }

    /** `checkIfManaged(cvar)`. */
    function CheckIfManaged(cvar: Cvar): (r: Outcome<CvarError>)
      reads this
      ensures r.Pass? <==> IsManagingCvar(cvar)
      ensures r.Fail? ==> r.error == UnmanagedCvar(cvar)
    {
      if IsManagingCvar(cvar) then Pass else Fail(UnmanagedCvar(cvar))
    }

    /** `load(cvar)`: only the managed check; nothing is read. */
    function Load(cvar: Cvar): (r: Outcome<CvarError>)
      reads this
      ensures r.Pass? <==> IsManagingCvar(cvar)
      ensures r.Fail? ==> r.error == UnmanagedCvar(cvar)
    {
      CheckIfManaged(cvar)
    }

    /** `save(cvar)`: only the managed check; nothing is written. */
    function Save(cvar: Cvar): (r: Outcome<CvarError>)
      reads this
      ensures r.Pass? <==> IsManagingCvar(cvar)
      ensures r.Fail? ==> r.error == UnmanagedCvar(cvar)
    {
      CheckIfManaged(cvar)
    }

    /** `commit(cvar)`: only the managed check. */
    function Commit(cvar: Cvar): (r: Outcome<CvarError>)
      reads this
      ensures r.Pass? <==> IsManagingCvar(cvar)
      ensures r.Fail? ==> r.error == UnmanagedCvar(cvar)
    {
      CheckIfManaged(cvar)
    }

    /** `getSerializer(type)`: `None` where the map has no entry. */
    function GetSerializer(t: JavaClass): (r: Option<Serializer>)
      reads this
      ensures r.Some? <==> t in serializers
      ensures r.Some? ==> r.value == serializers[t]
    {
      if t in serializers then Some(serializers[t]) else None
    }

    /** `getSerializer(cvar)`: the serializer of the cvar's value class. */
    function GetSerializerOf(cvar: Cvar): (r: Option<Serializer>)
      reads this
      ensures r == GetSerializer(cvar.valueClass)
    {
      GetSerializer(cvar.valueClass)
    }

    /** `putSerializer(type, serializer)`. */
    method PutSerializer(t: JavaClass, s: Serializer)
      modifies this`serializers
      ensures serializers == old(serializers)[t := s]
      ensures GetSerializer(t) == Some(s)
      ensures forall u :: u != t ==> GetSerializer(u) == old(GetSerializer(u))
    {
      serializers := serializers[t := s];
    }

    /** `add(cvar)`. */
    method Add(cvar: Cvar) returns (r: Result<Cvar, CvarError>)
      requires Valid()
      modifies this`cvars, this`subscriptions
      ensures Valid()
      ensures old(IsManagingCvar(cvar)) ==>
        r == Success(cvar) && cvars == old(cvars) && subscriptions == old(subscriptions)
      ensures !old(IsManagingCvar(cvar)) && old(ContainsAlias(cvar.alias)) ==>
        r == Failure(DuplicateCvar(cvar)) && cvars == old(cvars) && subscriptions == old(subscriptions)
      ensures !old(ContainsAlias(cvar.alias)) ==>
        && r == Success(cvar)
        && cvars == old(cvars)[ToLower(cvar.alias) := cvar]
        && subscriptions == old(subscriptions) + [cvar]
      ensures r.Success? ==> IsManagingCvar(cvar)
    {
      if IsManagingCvar(cvar) {
        return Success(cvar);
      } else if ContainsAlias(cvar.alias) {
        return Failure(DuplicateCvar(cvar));
      }
      cvars := cvars[ToLower(cvar.alias) := cvar];
      subscriptions := subscriptions + [cvar];
      r := Success(cvar);
    }

    /** `remove(cvar)`: `CVARS.remove(...) == null` is false whenever an entry was removed. */
    method Remove(cvar: Cvar) returns (removed: bool)
      requires Valid()
      modifies this`cvars
      ensures Valid()
      ensures !removed
      ensures old(IsManagingCvar(cvar)) ==> cvars == old(cvars) - {ToLower(cvar.alias)}
      ensures !old(IsManagingCvar(cvar)) ==> cvars == old(cvars)
    {
      if !IsManagingCvar(cvar) {
        return false;
      }
      var key := ToLower(cvar.alias);
      var previous := if key in cvars then Some(cvars[key]) else None;
      cvars := cvars - {key};
      removed := previous == None;
    }

    /** `create(alias, type, defaultValue[, validator])`: `load` runs before `add`, so a new cvar is always refused. */
    method Create(alias: string, valueClass: JavaClass) returns (r: Result<Cvar, CvarError>)
      requires Valid()
      modifies this`cvars, this`subscriptions
      ensures Valid()
      ensures r.Failure? && r.error.UnmanagedCvar? && fresh(r.error.cvar)
      ensures r.error.cvar.alias == alias && r.error.cvar.valueClass == valueClass
      ensures cvars == old(cvars) && subscriptions == old(subscriptions)
    {
      var cvar := new Cvar(alias, valueClass);
      var loaded := Load(cvar);
      // A cvar created just now cannot be in the table, so `load` throws and `add` is never reached.
      assert loaded.Fail?;
      r := Failure(loaded.error);
    }

    /** Every cvar in the table is managed. */
    lemma EntriesAreManaged(k: string)
      requires Valid() && k in cvars
      ensures IsManagingCvar(cvars[k])
    {
      ToLowerIdempotent(cvars[k].alias);
    }

    /** A managed cvar's alias is present; an unmanaged cvar whose alias is present collides with another cvar. */
    lemma AliasOfManaged(cvar: Cvar)
      ensures IsManagingCvar(cvar) ==> ContainsAlias(cvar.alias)
      ensures ContainsAlias(cvar.alias) && !IsManagingCvar(cvar) ==> cvars[ToLower(cvar.alias)] != cvar
    {
    }

    /** `containsAlias` does not depend on the case of its argument. */
    lemma ContainsAliasIgnoresCase(alias: string)
      ensures ContainsAlias(alias) == ContainsAlias(ToLower(alias))
    {
      ToLowerIdempotent(alias);
    }
  }
}
