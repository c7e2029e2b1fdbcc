/** The application registry: the fixed list of app descriptors (`APPS`),
    loaded once at startup, and the lookup by id that `get_app` performs. */
module Registry {

  datatype Option<+T> = None | Some(value: T)

  /** One registry entry. The script path is kept as given; resolving it
      against the configuration directory is not part of this model. */
  datatype AppDescriptor = AppDescriptor(id: string, name: string, url: string, script: string)

  /** The ids the registry knows. */
  function Ids(apps: seq<AppDescriptor>): set<string> {
    set d | d in apps :: d.id
  }

  /** The descriptor `get_app` answers with: the first one, in registry
      order, whose id is `id`, or nothing when no descriptor has that id. */
  function Find(apps: seq<AppDescriptor>, id: string): (r: Option<AppDescriptor>)
    ensures r.Some? <==> id in Ids(apps)
    ensures r.Some? ==> r.value in apps && r.value.id == id
  {
    if apps == [] then None
    else if apps[0].id == id then Some(apps[0])
    else
      assert forall d :: d in apps <==> d == apps[0] || d in apps[1..];
      Find(apps[1..], id)
  }

  /** When several descriptors share an id, the lookup answers with the
      earliest of them. */
  lemma {:induction false} FindIsFirst(apps: seq<AppDescriptor>, id: string, i: nat)
    requires i < |apps| && apps[i].id == id
    requires forall j :: 0 <= j < i ==> apps[j].id != id
    ensures Find(apps, id) == Some(apps[i])
  {
    if i > 0 {
      FindIsFirst(apps[1..], id, i - 1);
    }
  }

  /** `get_app`: a search over the registry that returns at the first match. */
  method GetApp(apps: seq<AppDescriptor>, id: string) returns (r: Option<AppDescriptor>)
    ensures r == Find(apps, id)
  {
    for i := 0 to |apps|
      invariant forall j :: 0 <= j < i ==> apps[j].id != id
    {
      if apps[i].id == id {
        FindIsFirst(apps, id, i);
        return Some(apps[i]);
      }
    }
    return None;
  }
}
