/** The service registry of `src/core/registry.py`: one implementation per
    interface key. */
module Registry {
  import opened Wrappers

  /** The `KeyError` that `get` raises for a key never added. */
  datatype LookupError = KeyError

  class Registry<K(==), V> {
    /** `_services`, updated in place by `add`. */
    var services: map<K, V>

    constructor ()
      ensures services == map[]
    {
      services := map[];
    }

    /** `add(iface, impl)`: binds or rebinds `iface`; every other entry stays. */
    method Add(iface: K, impl: V)
      modifies this
      ensures iface in services && services[iface] == impl
      ensures services.Keys == old(services.Keys) + {iface}
      ensures forall k :: k in old(services) && k != iface ==> services[k] == old(services[k])
    {
      services := services[iface := impl];
    }

    /** `get(iface)`: the bound implementation; `KeyError` when unbound. */
    method Get(iface: K) returns (r: Result<V, LookupError>)
      ensures r.Success? <==> iface in services
      ensures r.Success? ==> r.value == services[iface]
      ensures r.Failure? ==> r.error == KeyError
    {
      if iface in services {
        r := Success(services[iface]);
      } else {
        r := Failure(KeyError);
      }
    }

    /** `try_get(iface)`: the bound implementation, or `None`. */
    method TryGet(iface: K) returns (r: Option<V>)
      ensures r.Some? <==> iface in services
      ensures r.Some? ==> r.value == services[iface]
    {
      if iface in services {
        r := Some(services[iface]);
      } else {
        r := None;
      }
    }
  }

  /** After `add(k, v)`, both `get(k)` and `try_get(k)` give `v`, a later
      `add` on the same key overwrites it, and other keys are untouched. */
  method AddThenLookup<K(==), V>(reg: Registry<K, V>, k: K, v: V, w: V, other: K)
    requires other != k
    modifies reg
    ensures reg.services == old(reg.services)[k := w]
    ensures other in reg.services <==> other in old(reg.services)
  {
    reg.Add(k, v);
    var got := reg.Get(k);
    assert got == Success(v);
    var tried := reg.TryGet(k);
    assert tried == Some(v);
    reg.Add(k, w);
    got := reg.Get(k);
    assert got == Success(w);
  }
}
