/**
 * The dragon's resource record (`DragonPropertie` in the game scripts): its
 * constructors and the flat string-keyed record it is saved to and loaded from.
 *
 * The record is a `map<string, int>`: the game stores every field as a boxed
 * C# `int`, so the model keeps the integer and drops the boxing. Loading can
 * fail for a missing key, for a value outside the 32-bit range `int.Parse`
 * accepts, and for an element code that names no `Element`.
 */
module Dragon {

  /** The three elements, with the integer codes the enum gives them. */
  datatype Element = Fire | Ice | Thunder

  /** The C# `int` the record's integer fields are declared with. */
  newtype int32 = x: int | InInt32(x)

  predicate InInt32(x: int) {
    -0x8000_0000 <= x < 0x8000_0000
  }

  /** `(int)element`: Fire = 0, Ice = 1, Thunder = 2. */
  function ElementCode(e: Element): (c: int)
    ensures 0 <= c < 3
    ensures (c == 0 <==> e == Fire) && (c == 1 <==> e == Ice) && (c == 2 <==> e == Thunder)
  {
    match e
    case Fire => 0
    case Ice => 1
    case Thunder => 2
  }

  /** `(Element)code`, restricted to the codes the enum declares. */
  function ElementOfCode(c: int): (r: Option<Element>)
    ensures r.Some? <==> 0 <= c < 3
    ensures r.Some? ==> ElementCode(r.value) == c
  {
    if c == 0 then Some(Fire)
    else if c == 1 then Some(Ice)
    else if c == 2 then Some(Thunder)
    else None
  }

  lemma ElementCodeRoundTrip(e: Element)
    ensures ElementOfCode(ElementCode(e)) == Some(e)
  {
  }

  datatype Option<T> = None | Some(value: T)

  /** Why a stored record could not be loaded. */
  datatype LoadError =
    | MissingKey(key: string)      // the dictionary indexer throws for an absent key
    | Overflow(key: string)        // `int.Parse` rejects a value outside the 32-bit range
    | BadElement(code: int)        // the element code names no `Element`

  datatype Result<T> = Ok(value: T) | Err(error: LoadError) {
    predicate IsFailure() { Err? }

    function PropagateFailure<U>(): Result<U>
      requires Err?
    {
      Err(error)
    }

    function Extract(): T
      requires Ok?
    {
      value
    }
  }

  datatype DragonProperty = DragonProperty(
    level: int32,
    energy: int32,
    exp: int32,
    element: Element,
    timeCooldown: real,          // seconds
    speedRecoverEnergy: int32)   // energy units per second

  /** Field initialisers of the record. */
  const DefaultLevel: int32 := 1
  const DefaultEnergy: int32 := 100
  const DefaultExp: int32 := 0
  const DefaultTimeCooldown: real := 30.0
  const DefaultSpeedRecoverEnergy: int32 := 3

  /** The keys of the stored record, in the order they are read and written. */
  const LevelKey: string := "level"
  const EnergyKey: string := "energy"
  const ExpKey: string := "exp"
  const ElementKey: string := "element"
  const RecordKeys: set<string> := {LevelKey, EnergyKey, ExpKey, ElementKey}

  /** `new DragonPropertie(ele)`: the given element, every other field at its initialiser. */
  function WithElement(e: Element): (p: DragonProperty)
    ensures p.element == e
    ensures p.level == 1 && p.energy == 100 && p.exp == 0
    ensures p.timeCooldown == 30.0 && p.speedRecoverEnergy == 3
  {
    DragonProperty(DefaultLevel, DefaultEnergy, DefaultExp, e, DefaultTimeCooldown, DefaultSpeedRecoverEnergy)
  }

  /**
   * `new DragonPropertie()`: the element is the code drawn by `Random.Range(0, 3)`,
   * which is passed in as `roll` (the range's upper bound is exclusive).
   */
  function WithRandomElement(roll: int): (p: DragonProperty)
    requires 0 <= roll < 3
    ensures ElementCode(p.element) == roll
    ensures p.level == 1 && p.energy == 100 && p.exp == 0
    ensures p.timeCooldown == 30.0 && p.speedRecoverEnergy == 3
  {
    WithElement(ElementOfCode(roll).value)
  }

  /** `ToDictionary`: the four persisted fields, the element as its code. */
  function ToDictionary(p: DragonProperty): (m: map<string, int>)
    ensures m.Keys == RecordKeys
    ensures m[LevelKey] == p.level as int && m[EnergyKey] == p.energy as int && m[ExpKey] == p.exp as int
    ensures 0 <= m[ElementKey] < 3 && ElementOfCode(m[ElementKey]) == Some(p.element)
  {
    map[LevelKey := p.level as int, EnergyKey := p.energy as int,
        ExpKey := p.exp as int, ElementKey := ElementCode(p.element)]
  }

  /** The field under `key` is present and fits a C# `int`. */
  predicate Readable(data: map<string, int>, key: string) {
    key in data && InInt32(data[key])
  }

  /** The exception reading an unreadable field throws. */
  function ReadError(data: map<string, int>, key: string): (e: LoadError)
    requires !Readable(data, key)
    ensures e == if key in data then Overflow(key) else MissingKey(key)
  {
    if key !in data then MissingKey(key) else Overflow(key)
  }

  /** `int.Parse(data[key].ToString())` for a value already held as an integer. */
  function ParseInt32(data: map<string, int>, key: string): (r: Result<int32>)
    ensures key !in data ==> r == Err(MissingKey(key))
    ensures key in data && !InInt32(data[key]) ==> r == Err(Overflow(key))
    ensures r.Ok? <==> Readable(data, key)
    ensures r.Ok? ==> r.value as int == data[key]
  {
    if key !in data then Err(MissingKey(key))
    else if !InInt32(data[key]) then Err(Overflow(key))
    else Ok(data[key] as int32)
  }

  /** A record the dictionary constructor accepts. */
  predicate Loadable(data: map<string, int>) {
    Readable(data, LevelKey) && Readable(data, EnergyKey) && Readable(data, ExpKey)
    && Readable(data, ElementKey) && 0 <= data[ElementKey] < 3
  }

  /**
   * The dictionary constructor: reads `level`, `energy`, `exp` and `element` in
   * that order, so the first failing key is the one reported. Fields that are not
   * stored keep their initialisers.
   */
  function FromDictionary(data: map<string, int>): (r: Result<DragonProperty>)
    ensures r.Ok? <==> Loadable(data)
    ensures r.Ok? ==> r.value.level as int == data[LevelKey] && r.value.energy as int == data[EnergyKey]
                      && r.value.exp as int == data[ExpKey] && ElementCode(r.value.element) == data[ElementKey]
    ensures r.Ok? ==> r.value.timeCooldown == DefaultTimeCooldown && r.value.speedRecoverEnergy == DefaultSpeedRecoverEnergy
    ensures !Readable(data, LevelKey) ==> r == Err(ReadError(data, LevelKey))
    ensures Readable(data, LevelKey) && !Readable(data, EnergyKey) ==> r == Err(ReadError(data, EnergyKey))
    ensures (Readable(data, LevelKey) && Readable(data, EnergyKey) && !Readable(data, ExpKey))
              ==> r == Err(ReadError(data, ExpKey))
    ensures (Readable(data, LevelKey) && Readable(data, EnergyKey) && Readable(data, ExpKey)
             && !Readable(data, ElementKey))
              ==> r == Err(ReadError(data, ElementKey))
    ensures (Readable(data, LevelKey) && Readable(data, EnergyKey) && Readable(data, ExpKey)
             && Readable(data, ElementKey) && !(0 <= data[ElementKey] < 3))
              ==> r == Err(BadElement(data[ElementKey]))
  {
    var level :- ParseInt32(data, LevelKey);
    var energy :- ParseInt32(data, EnergyKey);
    var exp :- ParseInt32(data, ExpKey);
    var code :- ParseInt32(data, ElementKey);
    match ElementOfCode(code as int)
    case None => Err(BadElement(code as int))
    case Some(e) =>
      Ok(DragonProperty(level, energy, exp, e, DefaultTimeCooldown, DefaultSpeedRecoverEnergy))
  }

  /**
   * Saving and loading gives back the same level, energy, exp and element; the
   * cooldown and regeneration rate are not stored and come back at their defaults.
   */
  lemma RoundTrip(p: DragonProperty)
    ensures FromDictionary(ToDictionary(p))
         == Ok(p.(timeCooldown := DefaultTimeCooldown, speedRecoverEnergy := DefaultSpeedRecoverEnergy))
  {
    var m := ToDictionary(p);
    assert ParseInt32(m, LevelKey) == Ok(p.level);
    assert ParseInt32(m, EnergyKey) == Ok(p.energy);
    assert ParseInt32(m, ExpKey) == Ok(p.exp);
    ElementCodeRoundTrip(p.element);
  }

  /** A record built by `new DragonPropertie(ele)` survives saving and loading unchanged. */
  lemma RoundTripConstructed(e: Element)
    ensures FromDictionary(ToDictionary(WithElement(e))) == Ok(WithElement(e))
  {
    RoundTrip(WithElement(e));
  }

  /**
   * Loading and saving again gives back the four stored fields of the input
   * exactly; any other keys of the input are dropped.
   */
  lemma LoadThenSave(data: map<string, int>)
    requires FromDictionary(data).Ok?
    ensures ToDictionary(FromDictionary(data).value) == map k | k in RecordKeys :: data[k]
  {
    var m := ToDictionary(FromDictionary(data).value);
    var d := map k | k in RecordKeys :: data[k];
    assert m.Keys == d.Keys;
    forall k | k in m.Keys ensures m[k] == d[k] {
    }
  }

  /** `{level: 3, energy: 50, exp: 10, element: 1}` loads as an Ice dragon and saves back the same record. */
  lemma IceRecordExample()
    ensures var data := map[LevelKey := 3, EnergyKey := 50, ExpKey := 10, ElementKey := 1];
            FromDictionary(data).Ok? && FromDictionary(data).value.element == Ice
            && ToDictionary(FromDictionary(data).value) == data
  {
    var data := map[LevelKey := 3, EnergyKey := 50, ExpKey := 10, ElementKey := 1];
    LoadThenSave(data);
    assert (map k | k in RecordKeys :: data[k]) == data;
  }
}
