/** Values shared by the model: optional values, results, and the three states
    a key of a decoded JSON object can be in. */
module Common {

  datatype Option<+T> = None | Some(value: T) {
    /** The value, or `default` when there is none. */
    function GetOr(default: T): T {
      if Some? then value else default
    }
  }

  datatype Result<+T, +E> = Success(value: T) | Failure(error: E)

  /** One key of a metadata dict: absent, present with JSON null, or present
      with a value. Python's `dict.get` treats the first two differently. */
  datatype Field<+T> = Missing | Null | Given(value: T)

  /** `d.get(key, default)`: the default replaces an absent key only; a stored
      null stays null (`None`). */
  function GetWithDefault<T>(f: Field<T>, default: T): (r: Option<T>)
    ensures r.None? <==> f.Null?
    ensures f.Missing? ==> r == Some(default)
    ensures f.Given? ==> r == Some(f.value)
  {
    match f
    case Missing => Some(default)
    case Null => None
    case Given(v) => Some(v)
  }

  /** `d.get(key)`: both an absent key and a stored null read as `None`. */
  function Get<T>(f: Field<T>): (r: Option<T>)
    ensures r.Some? <==> f.Given?
    ensures f.Given? ==> r.value == f.value
  {
    if f.Given? then Some(f.value) else None
  }

  /** `d.get(key) or []`: a missing, null or empty list all read as empty. */
  function OrEmpty<T>(f: Field<seq<T>>): (r: seq<T>)
    ensures f.Given? ==> r == f.value
    ensures !f.Given? ==> r == []
  {
    if f.Given? then f.value else []
  }

  /** Python truthiness of an optional string: present and non-empty. */
  predicate TruthyText(o: Option<string>) {
    o.Some? && o.value != ""
  }

  /** Python truthiness of an optional number: present and non-zero. */
  predicate TruthyNumber(o: Option<real>) {
    o.Some? && o.value != 0.0
  }
}
