// The columns every table shares (id, creation and modification dates, the `actif` flag)
// and the generic `update`, `soft_delete` and `to_dict` of the base model.
module BaseModel {
  import opened Wrappers

  /** A column value: SQL NULL, an integer, a text, a boolean or a datetime (whole seconds). */
  datatype Value = VNone | VInt(i: int) | VStr(s: string) | VBool(b: bool) | VDate(t: int)

  /** Python truthiness of a column value; a datetime is always true. */
  predicate Truthy(v: Value)
  {
    match v
    case VNone => false
    case VInt(i) => i != 0
    case VStr(s) => s != ""
    case VBool(b) => b
    case VDate(_) => true
  }

  /** The four shared columns; a concrete model adds its own to the attribute map. */
  const BaseColumns: set<string> := {"id", "date_creation", "date_modification", "actif"}

  /** The dictionary `**kwargs` builds from the named arguments: a later name wins. */
  function KwargsMap(kwargs: seq<(string, Value)>): map<string, Value>
  {
    if kwargs == [] then map[]
    else
      var last := kwargs[|kwargs| - 1];
      KwargsMap(kwargs[..|kwargs| - 1])[last.0 := last.1]
  }

  /** The entries of `m` whose key lies in `keys`. */
  function Restrict(m: map<string, Value>, keys: set<string>): map<string, Value>
  {
    map k | k in m && k in keys :: m[k]
  }

  /** The attributes after the `setattr` loop has handled the pairs of `kwargs` in order. */
  function ApplyKwargs(attrs: map<string, Value>, kwargs: seq<(string, Value)>): map<string, Value>
  {
    if kwargs == [] then attrs
    else
      var before := ApplyKwargs(attrs, kwargs[..|kwargs| - 1]);
      var last := kwargs[|kwargs| - 1];
      if last.0 in before then before[last.0 := last.1] else before
  }

  /**
   * The loop sets exactly the attributes the object already has, each to the value the
   * arguments name for it, and ignores every unknown name: the attribute set never grows.
   */
  lemma {:induction false} ApplyKwargsOverrides(attrs: map<string, Value>, kwargs: seq<(string, Value)>)
    ensures ApplyKwargs(attrs, kwargs).Keys == attrs.Keys
    ensures ApplyKwargs(attrs, kwargs) == attrs + Restrict(KwargsMap(kwargs), attrs.Keys)
    decreases |kwargs|
  {
    if kwargs != [] {
      var init := kwargs[..|kwargs| - 1];
      ApplyKwargsOverrides(attrs, init);
    }
  }

  /** A concrete key's outcome: the argument's value when the attribute exists, else nothing happens. */
  lemma {:induction false} ApplyKwargsAt(attrs: map<string, Value>, kwargs: seq<(string, Value)>, k: string)
    ensures k in ApplyKwargs(attrs, kwargs) <==> k in attrs
    ensures k in attrs && k in KwargsMap(kwargs) ==> ApplyKwargs(attrs, kwargs)[k] == KwargsMap(kwargs)[k]
    ensures k in attrs && k !in KwargsMap(kwargs) ==> ApplyKwargs(attrs, kwargs)[k] == attrs[k]
  {
    ApplyKwargsOverrides(attrs, kwargs);
  }

  /** `to_dict` on an attribute map: the dates through `isoformat`, a falsy date as `None`. */
  datatype BaseDict = BaseDict(id: Value, dateCreation: Value, dateModification: Value, actif: Value)

  /** `isoformat()` of a truthy value: a datetime gives its text, anything else has no such method. */
  function IsoOf(v: Value, iso: int -> string): Result<Value>
  {
    if !Truthy(v) then Ok(VNone)
    else match v
      case VDate(t) => Ok(VStr(iso(t)))
      case _ => Err("AttributeError")
  }

  /** A record: its attribute map, which always holds the four shared columns. */
  class BaseRecord {
    var attrs: map<string, Value>

    ghost predicate Valid()
      reads this
    {
      BaseColumns <= attrs.Keys
    }

    /** A row as `save` inserts it: the model's own columns, a new id and the column defaults. */
    constructor (own: map<string, Value>, id: int, now: int)
      ensures Valid()
      ensures attrs == own + map["id" := VInt(id), "date_creation" := VDate(now),
                                 "date_modification" := VDate(now), "actif" := VBool(true)]
    {
      attrs := own + map["id" := VInt(id), "date_creation" := VDate(now),
                         "date_modification" := VDate(now), "actif" := VBool(true)];
    }

    /** `update(**kwargs)`: set the known attributes in order, then stamp the modification date. */
    method Update(kwargs: seq<(string, Value)>, now: int)
      requires Valid()
      modifies this
      ensures Valid()
      ensures attrs == ApplyKwargs(old(attrs), kwargs)["date_modification" := VDate(now)]
    {
      var i := 0;
      while i < |kwargs|
        invariant 0 <= i <= |kwargs|
        invariant attrs == ApplyKwargs(old(attrs), kwargs[..i])
      {
        assert kwargs[..i + 1][..i] == kwargs[..i];
        var (key, value) := kwargs[i];
        if key in attrs {
          attrs := attrs[key := value];
        }
        i := i + 1;
      }
      assert kwargs[..i] == kwargs;
      ApplyKwargsOverrides(old(attrs), kwargs);
      attrs := attrs["date_modification" := VDate(now)];
    }

    /**
     * `soft_delete`: `actif` becomes false, and the commit's UPDATE stamps the modification date
     * (the column's `onupdate`); a record already inactive is not updated at all.
     */
    method SoftDelete(now: int)
      requires Valid()
      modifies this
      ensures Valid()
      ensures old(attrs)["actif"] == VBool(false) ==> attrs == old(attrs)
      ensures old(attrs)["actif"] != VBool(false) ==>
        attrs == old(attrs)["actif" := VBool(false)]["date_modification" := VDate(now)]
    {
      if attrs["actif"] != VBool(false) {
        attrs := attrs["actif" := VBool(false)]["date_modification" := VDate(now)];
      }
    }

    /** `to_dict`: exactly the four shared columns, the dates as ISO text or `None`. */
    function ToDict(iso: int -> string): (r: Result<BaseDict>)
      reads this
      requires Valid()
      ensures r.Ok? <==> IsoOf(attrs["date_creation"], iso).Ok? && IsoOf(attrs["date_modification"], iso).Ok?
      ensures r.Ok? ==> r.value.id == attrs["id"] && r.value.actif == attrs["actif"]
      ensures r.Ok? ==> r.value.dateCreation == IsoOf(attrs["date_creation"], iso).value
      ensures r.Ok? ==> r.value.dateModification == IsoOf(attrs["date_modification"], iso).value
    {
      match (IsoOf(attrs["date_creation"], iso), IsoOf(attrs["date_modification"], iso))
      case (Ok(c), Ok(m)) => Ok(BaseDict(attrs["id"], c, m, attrs["actif"]))
      case (Err(e), _) => Err(e)
      case (_, Err(e)) => Err(e)
    }
  }
}
