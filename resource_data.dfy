/**
 * The state bag a read function fills (`schema.ResourceData`), reduced to what
 * the modelled read functions use: the resource id and a map of output fields.
 *
 * `d.Set` can fail when a value does not fit the field's schema; which keys
 * fail is not decided here, so every bag carries the set `rejects` of keys
 * whose `Set` fails.
 */
module ResourceModel {
  import opened Wrappers

  /** One entry of a `cpu` list: the platform label, fractional cores and memory. */
  datatype CpuEntry = CpuEntry(platform: string, cores: real, memory: int)

  /** The kinds of value the modelled read functions store. */
  datatype Value =
    | Str(s: string)
    | Int(i: int)
    | StrMap(m: map<string, string>)
    | CpuList(entries: seq<CpuEntry>)

  /** Everything a modelled operation can return as a Go `error`. */
  datatype Error =
    | Remote(message: string)                // a failed SDK call, passed through unchanged
    | FolderLookup(cause: Error)             // "Error getting folder ID while ...: <cause>"
    | SetRejected(key: string)               // d.Set refused the value for this key
    | WrongVirtualHostId(id: string)         // "error reading virtual_host, wrong id: <id>"
    | InvalidSaKeyJson(key: string)          // "JSON in <key> are not valid: ..."

  /** A value snapshot of the bag. */
  datatype Snapshot = Snapshot(id: string, values: map<string, Value>, rejects: set<string>)

  /** `d.Set(key, v)`: stores `v` under `key` unless the schema rejects it. */
  function SetField(s: Snapshot, key: string, v: Value): (r: (Snapshot, Option<Error>))
    ensures r.1 == None <==> key !in s.rejects
    ensures r.1 != None ==> r.0 == s && r.1 == Some(SetRejected(key))
    ensures r.1 == None ==> r.0.id == s.id && r.0.rejects == s.rejects
    ensures r.1 == None ==> key in r.0.values && r.0.values[key] == v
    ensures r.1 == None ==> forall k :: k in s.values && k != key ==> k in r.0.values && r.0.values[k] == s.values[k]
    ensures r.1 == None ==> r.0.values.Keys == s.values.Keys + {key}
  {
    if key in s.rejects then (s, Some(SetRejected(key)))
    else (s.(values := s.values[key := v]), None)
  }

  /** The bag itself, updated in place by the read functions. */
  class ResourceData {
    var id: string
    var values: map<string, Value>
    const rejects: set<string>

    function Snap(): Snapshot
      reads this
    {
      Snapshot(id, values, rejects)
    }

    constructor (id0: string, values0: map<string, Value>, rejects0: set<string>)
      ensures Snap() == Snapshot(id0, values0, rejects0)
    {
      id, values, rejects := id0, values0, rejects0;
    }

    /** `d.SetId(x)` */
    method SetId(x: string)
      modifies this
      ensures id == x && values == old(values)
    {
      id := x;
    }

    /** `d.Set(key, v)` */
    method Set(key: string, v: Value) returns (err: Option<Error>)
      modifies this
      ensures (Snap(), err) == SetField(old(Snap()), key, v)
    {
      if key in rejects {
        err := Some(SetRejected(key));
      } else {
        values := values[key := v];
        err := None;
      }
    }
  }
}
