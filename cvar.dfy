/**
 * `Cvar`: a named, typed setting with a default value. Cvars register
 * themselves in one global table under their lower-cased key; a change of
 * value is written to the preferences store and announced to the cvar's own
 * change listeners and then to the global ones. The static state of the
 * class (the table, the global listeners, the preferences store) is the
 * object `CvarStatics`; listener calls are recorded as notifications.
 */
module Settings {
  import opened Wrappers
  import opened JavaLang

  /** A change listener, known by identity only. */
  type ListenerId = nat

  /**
   * A cvar value, as the boxed object Java holds: its class and an abstract
   * stand-in for its content. Two values are `equals` exactly when both agree.
   * One type for every class lets one table hold cvars of different classes,
   * as `Cvar<?>` does.
   */
  datatype Value = Value(cls: JavaClass, content: nat)

  /** A load listener: the two conversions between a value and its text in the preferences store. */
  datatype LoadListener = LoadListener(format: Value -> string, parse: string -> Value)

  /** Whether a notification went to one of the cvar's own listeners or to a global one. */
  datatype Scope = PerCvar | Global

  /** The `IllegalArgumentException`s of the constructor and the `IllegalStateException` of `setValue(String)`. */
  datatype CvarError = NullKey | EmptyKey | DuplicateKey(key: string) | NoLoadListener(text: string)

  /** One call `listener.onCvarChanged(cvar, from, to)`; `from == None` is a `null` old value. */
  datatype Notification = Notification(listener: ListenerId, scope: Scope, cvar: Cvar, from: Option<Value>, to: Value)

  /** The classes for which a built-in load listener exists. */
  const LOADABLE_CLASSES: set<JavaClass> :=
    {StringClass, BooleanClass, FloatClass, DoubleClass, ByteClass, ShortClass, IntegerClass, LongClass}

  /** The key checks of the constructor, in order; `registered` holds the keys of the table. */
  function KeyCheck(key: Option<string>, registered: set<string>): (r: Outcome<CvarError>)
    ensures r.Pass? <==> key.Some? && key.value != "" && key.value !in registered
    ensures key.None? ==> r == Fail(NullKey)
    ensures key == Some("") ==> r == Fail(EmptyKey)
  {
    if key.None? then Fail(NullKey)
    else if key.value == "" then Fail(EmptyKey)
    else if key.value in registered then Fail(DuplicateKey(key.value))
    else Pass
  }

  /**
   * The load listener a new cvar gets: the given one, else the built-in one
   * of its class (`builtIn` gives each class's `INSTANCE`), else none.
   */
  function ChooseLoadListener(given: Option<LoadListener>, valueClass: JavaClass, builtIn: JavaClass -> LoadListener): (r: Option<LoadListener>)
    ensures r.None? <==> given.None? && valueClass !in LOADABLE_CLASSES
    ensures given.Some? ==> r == given
    ensures given.None? && valueClass in LOADABLE_CLASSES ==> r == Some(builtIn(valueClass))
  {
    if given.Some? then given
    else if valueClass in LOADABLE_CLASSES then Some(builtIn(valueClass))
    else None
  }

  /** `PREFERENCES.getString(key, fallback)`. */
  function StoredString(preferences: map<string, string>, key: string, fallback: string): (s: string)
    ensures key in preferences ==> s == preferences[key]
    ensures key !in preferences ==> s == fallback
  {
    if key in preferences then preferences[key] else fallback
  }

  /** The value a new cvar starts with: the stored text parsed by its load listener, else the default. */
  function InitialValue(ll: Option<LoadListener>, preferences: map<string, string>, key: string, defaultValue: Value): (v: Value)
    ensures ll.None? ==> v == defaultValue
    ensures ll.Some? && key !in preferences ==> v == ll.value.parse(ll.value.format(defaultValue))
    ensures ll.Some? && key in preferences ==> v == ll.value.parse(preferences[key])
  {
    if ll.Some? then ll.value.parse(StoredString(preferences, key, ll.value.format(defaultValue)))
    else defaultValue
  }

  /** The notifications of one listener set, in iteration order. */
  function Notify(ls: seq<ListenerId>, scope: Scope, c: Cvar, from: Option<Value>, to: Value): (r: seq<Notification>)
    ensures |r| == |ls|
    ensures forall i :: 0 <= i < |ls| ==> r[i] == Notification(ls[i], scope, c, from, to)
  {
    seq(|ls|, i requires 0 <= i < |ls| => Notification(ls[i], scope, c, from, to))
  }

  /** What a change from `from` to `to` announces: every per-cvar listener, then every global one. */
  function ChangeNotifications(c: Cvar, from: Value, to: Value, locals: seq<ListenerId>, globals: seq<ListenerId>): (r: seq<Notification>) {
    Notify(locals, PerCvar, c, Some(from), to) + Notify(globals, Global, c, Some(from), to)
  }

  /** The per-cvar listeners come first; each call carries the old and the new value. */
  lemma ChangeNotificationsOrder(c: Cvar, from: Value, to: Value, locals: seq<ListenerId>, globals: seq<ListenerId>, k: nat)
    requires k < |locals| + |globals|
    ensures |ChangeNotifications(c, from, to, locals, globals)| == |locals| + |globals|
    ensures var n := ChangeNotifications(c, from, to, locals, globals)[k];
      && n.cvar == c && n.from == Some(from) && n.to == to
      && (k < |locals| ==> n.listener == locals[k] && n.scope == PerCvar)
      && (k >= |locals| ==> n.listener == globals[k - |locals|] && n.scope == Global)
  {
  }

  // ---------------------------------------------------------------------

  /** The static part of `Cvar`: `CVARS`, `GLOBAL_CHANGE_LISTENERES`, `PREFERENCES`, and the listener calls made so far. */
  class CvarStatics {
    var cvars: map<string, Cvar>
    var globalListeners: seq<ListenerId>
    var preferences: map<string, string>
    var notifications: seq<Notification>

    /** Every cvar is stored under its lower-cased key. */
    ghost predicate Valid()
      reads this
    {
      forall k :: k in cvars ==> k == ToLower(cvars[k].key)
    }

    constructor (preferences: map<string, string>)
      ensures Valid()
      ensures cvars == map[] && globalListeners == [] && this.preferences == preferences && notifications == []
    {
      cvars := map[];
      globalListeners := [];
      this.preferences := preferences;
      notifications := [];
    }

    /** `Cvar.get(key)`: looks the lower-cased key up. */
    function Get(key: string): (r: Option<Cvar>)
      reads this
      ensures r.Some? <==> ToLower(key) in cvars
      ensures r.Some? ==> r.value == cvars[ToLower(key)]
    {
      if ToLower(key) in cvars then Some(cvars[ToLower(key)]) else None
    }

    /** `Cvar.search(key)`: the entries whose stored key starts with `prefix`, which is not lower-cased. */
    function Search(prefix: string): (r: map<string, Cvar>)
      reads this
      ensures forall k :: k in r <==> k in cvars && prefix <= k
      ensures forall k :: k in r ==> r[k] == cvars[k]
    {
      map k | k in cvars && prefix <= k :: cvars[k]
    }

    /** `Cvar.get` does not depend on the case of its argument. */
    lemma GetIgnoresCase(key: string)
      ensures Get(key) == Get(ToLower(key))
    {
      ToLowerIdempotent(key);
    }

    /** A prefix holding an upper-case letter finds nothing, since every stored key is lower case. */
    lemma SearchWithUpperCaseFindsNothing(prefix: string, i: nat)
      requires Valid()
      requires i < |prefix| && IsUpper(prefix[i])
      ensures Search(prefix) == map[]
    {
    }

    /** The constructor's duplicate test uses the key as given: a key with an upper-case letter never collides. */
    lemma UpperCaseKeyPassesDuplicateCheck(key: string, i: nat)
      requires Valid()
      requires i < |key| && IsUpper(key[i])
      ensures KeyCheck(Some(key), cvars.Keys) == Pass
    {
    }

    /** `addGlobalCvarChangeListener(l)`. */
    method AddGlobalCvarChangeListener(l: ListenerId)
      modifies this`globalListeners
      ensures globalListeners == if l in old(globalListeners) then old(globalListeners) else old(globalListeners) + [l]
    {
      if l !in globalListeners {
        globalListeners := globalListeners + [l];
      }
    }

    /**
     * `new Cvar(key, type, defaultValue, listener)`. `valueClass == None`
     * takes the class of the default value; `builtIn` gives the built-in
     * load listener of each class.
     */
    method NewCvar(key: Option<string>, valueClass: Option<JavaClass>, defaultValue: Value,
                   listener: Option<LoadListener>, builtIn: JavaClass -> LoadListener)
      returns (r: Result<Cvar, CvarError>)
      requires Valid()
      modifies this`cvars
      ensures Valid()
      ensures r.Failure? <==> KeyCheck(key, old(cvars).Keys).Fail?
      ensures r.Failure? ==> r.error == KeyCheck(key, old(cvars).Keys).error && cvars == old(cvars)
      ensures r.Success? ==>
        var c := r.value;
        var cls := if valueClass.Some? then valueClass.value else defaultValue.cls;
        var ll := ChooseLoadListener(listener, cls, builtIn);
        && fresh(c)
        && cvars == old(cvars)[ToLower(key.value) := c]
        && Get(key.value) == Some(c)
        && c.key == key.value && c.valueClass == cls && c.defaultValue == defaultValue
        && c.loadListener == ll
        && c.value == InitialValue(ll, preferences, key.value, defaultValue)
        && c.changeListeners == []
    {
      var check := KeyCheck(key, cvars.Keys);
      if check.Fail? {
        return Failure(check.error);
      }
      var k := key.value;
      var cls := if valueClass.Some? then valueClass.value else defaultValue.cls;
      var ll := ChooseLoadListener(listener, cls, builtIn);
      var v := defaultValue;
      if ll.Some? {
        var stringVal := ll.value.format(defaultValue);
        v := ll.value.parse(StoredString(preferences, k, stringVal));
      }
      var c := new Cvar(k, cls, defaultValue, ll, v);
      cvars := cvars[ToLower(k) := c];
      ToLowerIdempotent(k);
      r := Success(c);
    }
  }

  class Cvar {
    const key: string
    const valueClass: JavaClass
    const defaultValue: Value
    const loadListener: Option<LoadListener>
    /** `CHANGE_LISTENERS`, in insertion order. */
    var changeListeners: seq<ListenerId>
    var value: Value

    /** The field set-up of the constructor, after its checks. */
    constructor (key: string, valueClass: JavaClass, defaultValue: Value, loadListener: Option<LoadListener>, value: Value)
      ensures this.key == key && this.valueClass == valueClass && this.defaultValue == defaultValue
      ensures this.loadListener == loadListener && this.value == value && changeListeners == []
    {
      this.key := key;
      this.valueClass := valueClass;
      this.defaultValue := defaultValue;
      this.loadListener := loadListener;
      this.value := value;
      changeListeners := [];
    }

    /** `setValue(T)`: nothing happens for an equal value; otherwise store, persist, then notify. */
    method SetValue(st: CvarStatics, v: Value)
      modifies this`value, st`preferences, st`notifications
      ensures value == v
      ensures old(value) == v ==> st.preferences == old(st.preferences) && st.notifications == old(st.notifications)
      ensures old(value) != v ==>
        && st.preferences == (if loadListener.Some? then old(st.preferences)[key := loadListener.value.format(v)]
                              else old(st.preferences))
        && st.notifications == old(st.notifications)
             + ChangeNotifications(this, old(value), v, changeListeners, st.globalListeners)
    {
      if value == v {
        return;
      }
      var oldValue := value;
      value := v;
      if loadListener.Some? {
        st.preferences := st.preferences[key := loadListener.value.format(value)];
      }
      var i := 0;
      while i < |changeListeners|
        invariant 0 <= i <= |changeListeners|
        invariant value == v
        invariant st.preferences == (if loadListener.Some? then old(st.preferences)[key := loadListener.value.format(v)]
                                     else old(st.preferences))
        invariant st.notifications == old(st.notifications) + Notify(changeListeners[..i], PerCvar, this, Some(oldValue), v)
      {
        assert changeListeners[..i + 1] == changeListeners[..i] + [changeListeners[i]];
        st.notifications := st.notifications + [Notification(changeListeners[i], PerCvar, this, Some(oldValue), value)];
        i := i + 1;
      }
      assert changeListeners[..i] == changeListeners;
      ghost var afterLocal := st.notifications;
      var j := 0;
      while j < |st.globalListeners|
        invariant 0 <= j <= |st.globalListeners|
        invariant value == v
        invariant st.preferences == (if loadListener.Some? then old(st.preferences)[key := loadListener.value.format(v)]
                                     else old(st.preferences))
        invariant st.notifications == afterLocal + Notify(st.globalListeners[..j], Global, this, Some(oldValue), v)
      {
        assert st.globalListeners[..j + 1] == st.globalListeners[..j] + [st.globalListeners[j]];
        st.notifications := st.notifications + [Notification(st.globalListeners[j], Global, this, Some(oldValue), value)];
        j := j + 1;
      }
      assert st.globalListeners[..j] == st.globalListeners;
    }

    /** `setValue(String)`: needs a load listener to parse the text. */
    method SetValueFromString(st: CvarStatics, text: string) returns (r: Outcome<CvarError>)
      modifies this`value, st`preferences, st`notifications
      ensures r.Fail? <==> loadListener.None?
      ensures r.Fail? ==> r.error == NoLoadListener(text) && value == old(value)
                          && st.preferences == old(st.preferences) && st.notifications == old(st.notifications)
      ensures r.Pass? ==> value == loadListener.value.parse(text)
      ensures r.Pass? && old(value) == loadListener.value.parse(text) ==>
        st.preferences == old(st.preferences) && st.notifications == old(st.notifications)
      ensures r.Pass? && old(value) != loadListener.value.parse(text) ==>
        var v := loadListener.value.parse(text);
        && st.preferences == old(st.preferences)[key := loadListener.value.format(v)]
        && st.notifications == old(st.notifications)
             + ChangeNotifications(this, old(value), v, changeListeners, st.globalListeners)
    {
      if loadListener.None? {
        return Fail(NoLoadListener(text));
      }
      SetValue(st, loadListener.value.parse(text));
      r := Pass;
    }

    /** `reset()`: back to the default value. */
    method Reset(st: CvarStatics)
      modifies this`value, st`preferences, st`notifications
      ensures value == defaultValue
      ensures old(value) == defaultValue ==> st.preferences == old(st.preferences) && st.notifications == old(st.notifications)
      ensures old(value) != defaultValue ==>
        && st.preferences == (if loadListener.Some? then old(st.preferences)[key := loadListener.value.format(defaultValue)]
                              else old(st.preferences))
        && st.notifications == old(st.notifications)
             + ChangeNotifications(this, old(value), defaultValue, changeListeners, st.globalListeners)
    {
      SetValue(st, defaultValue);
    }

    /** `addCvarChangeListener(l)`: adds `l` and calls it at once with a null old value. */
    method AddCvarChangeListener(st: CvarStatics, l: ListenerId)
      modifies this`changeListeners, st`notifications
      ensures changeListeners == if l in old(changeListeners) then old(changeListeners) else old(changeListeners) + [l]
      ensures st.notifications == old(st.notifications) + [Notification(l, PerCvar, this, None, value)]
    {
      if l !in changeListeners {
        changeListeners := changeListeners + [l];
      }
      st.notifications := st.notifications + [Notification(l, PerCvar, this, None, value)];
    }
  }
}
