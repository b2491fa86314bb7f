/** The write-once module registry and the "name:version" key it shares with the edge caches. */
module Registry {
  import opened Common

  datatype Metadata = Metadata(id: string, name: string, version: string, sizeBytes: nat, createdAt: nat, hash: string)

  datatype RegistryError = AlreadyExists(name: string, version: string)

  function Key(name: string, version: string): string
  {
    name + ":" + version
  }

  class ModuleRegistry {
    var modules: map<string, (Metadata, Bytes)>

    constructor ()
      ensures modules == map[]
    {
      modules := map[];
    }

    /** Stores once: an occupied key is refused and nothing changes. */
    method Store(name: string, version: string, bytes: Bytes, uuid: string, now: nat, hash: Bytes -> string)
      returns (r: Result<Metadata, RegistryError>)
      modifies this
      ensures r.Err? <==> Key(name, version) in old(modules)
      ensures r.Err? ==> modules == old(modules) && r.error == AlreadyExists(name, version)
      ensures r.Ok? ==>
        && r.value == Metadata(uuid, name, version, |bytes|, now, hash(bytes))
        && modules == old(modules)[Key(name, version) := (r.value, bytes)]
    {
      var key := Key(name, version);
      if key in modules {
        return Err(AlreadyExists(name, version));
      }
      var meta := Metadata(uuid, name, version, |bytes|, now, hash(bytes));
      modules := modules[key := (meta, bytes)];
      return Ok(meta);
    }

    function Get(name: string, version: string): (r: Option<(Metadata, Bytes)>)
      reads this
      ensures r.Some? <==> Key(name, version) in modules
      ensures r.Some? ==> modules[Key(name, version)] == r.value
    {
      if Key(name, version) in modules then Some(modules[Key(name, version)]) else None
    }
  }

  // --- The key format -----------------------------------------------------------------------

  lemma ColonAt(name: string, version: string)
    ensures |Key(name, version)| == |name| + 1 + |version|
    ensures Key(name, version)[|name|] == ':'
    ensures forall i | 0 <= i < |name| :: Key(name, version)[i] == name[i]
    ensures Key(name, version)[|name| + 1..] == version
  {
  }

  /** Two pairs whose names hold no colon share a key only when they are the same pair. */
  lemma KeyInjective(n: string, v: string, m: string, u: string)
    requires ':' !in n && ':' !in m && Key(n, v) == Key(m, u)
    ensures n == m && v == u
  {
    ColonAt(n, v);
    ColonAt(m, u);
    assert |n| == |m| && n == m;
  }

  /** A pair is the only one with its key exactly when neither half holds a colon. */
  lemma KeyUnambiguous(n: string, v: string)
    ensures (':' !in n && ':' !in v) <==> (forall m, u | Key(m, u) == Key(n, v) :: m == n && u == v)
  {
    if ':' in n {
      var i :| 0 <= i < |n| && n[i] == ':';
      var m, u := n[..i], n[i + 1..] + ":" + v;
      assert n == n[..i] + ":" + n[i + 1..];
      assert Key(m, u) == Key(n, v) && m != n;
    } else if ':' in v {
      var i :| 0 <= i < |v| && v[i] == ':';
      var m, u := n + ":" + v[..i], v[i + 1..];
      assert v == v[..i] + ":" + v[i + 1..];
      assert Key(m, u) == Key(n, v) && u != v;
    } else {
      forall m, u | Key(m, u) == Key(n, v)
        ensures m == n && u == v
      {
        ColonAt(n, v);
        ColonAt(m, u);
        OnlyColon(n, v, m, u);
        assert m == n && u == v;
      }
    }
  }

  lemma OnlyColon(n: string, v: string, m: string, u: string)
    requires ':' !in n && ':' !in v && Key(n, v) == Key(m, u)
    ensures |m| == |n|
  {
    ColonAt(n, v);
    ColonAt(m, u);
    assert forall i | |n| < i < |Key(n, v)| :: Key(n, v)[i] == v[i - |n| - 1];
  }
}
