/**
 * The `UserDefaults.standard` key-value store that the user manager and the event tracker
 * persist into. Values keep their kind; Foundation's conversions between kinds (a stored
 * string read back as an integer, say) are not modelled.
 */
module Store {
  import opened Wrappers
  import opened Json

  /** A stored value: an integer, a string, a date (seconds) or a data blob holding encoded JSON. */
  datatype StoreValue = SInt(i: int) | SString(s: string) | SDate(seconds: real) | SData(json: Json)

  class Defaults {
    var values: map<string, StoreValue>

    constructor(initial: map<string, StoreValue>)
      ensures values == initial
    {
      values := initial;
    }

    /** `object(forKey:) != nil`. */
    predicate Has(key: string)
      reads this
    {
      key in values
    }

    /** `integer(forKey:)`: the stored integer, 0 when the key is absent. */
    function Integer(key: string): (i: int)
      reads this
      ensures key in values && values[key].SInt? ==> i == values[key].i
      ensures key !in values ==> i == 0
    {
      if key in values && values[key].SInt? then values[key].i else 0
    }

    /** `string(forKey:)`. */
    function StringFor(key: string): (s: Option<string>)
      reads this
      ensures s.Some? <==> key in values && values[key].SString?
      ensures s.Some? ==> values[key] == SString(s.value)
    {
      if key in values && values[key].SString? then Some(values[key].s) else None
    }

    /** `data(forKey:)`. */
    function DataFor(key: string): (d: Option<Json>)
      reads this
      ensures d.Some? <==> key in values && values[key].SData?
      ensures d.Some? ==> values[key] == SData(d.value)
    {
      if key in values && values[key].SData? then Some(values[key].json) else None
    }

    /** `object(forKey:) as? Date`. */
    function DateFor(key: string): (d: Option<real>)
      reads this
      ensures d.Some? <==> key in values && values[key].SDate?
      ensures d.Some? ==> values[key] == SDate(d.value)
    {
      if key in values && values[key].SDate? then Some(values[key].seconds) else None
    }

    /** `set(_:forKey:)`: the key now holds `v`, every other key is unchanged. */
    method Set(key: string, v: StoreValue)
      modifies this
      ensures values == old(values)[key := v]
    {
      values := values[key := v];
    }
  }
}
