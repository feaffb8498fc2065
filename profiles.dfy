/** The fixed table of storage-condition profiles (`Profile`, `PROFILES`). */
module Profiles {
  import opened Wrappers

  /** A named safe-storage envelope: temperature bounds and optimum (degrees
      Celsius) and relative-humidity bounds (percent). */
  datatype Profile = Profile(name: string, tmin: real, tmax: real, optimum: real, umin: real, umax: real)

  /** The invariant every entry of the table keeps. */
  predicate WellFormed(p: Profile) {
    p.tmin < p.optimum < p.tmax && p.umin < p.umax
  }

  /** The profile table, keyed by the identifier the profile selector carries. */
  const Table: map<string, Profile> := map[
    "vacina" := Profile("Vacinas", 2.0, 8.0, 5.0, 20.0, 60.0),
    "insulina" := Profile("Insulina", 2.0, 8.0, 5.0, 20.0, 60.0),
    "reagente" := Profile("Reagentes", 15.0, 25.0, 20.0, 20.0, 60.0),
    "solucao" := Profile("Soluções", 15.0, 25.0, 20.0, 20.0, 60.0),
    "antibiotico" := Profile("Antibióticos", 8.0, 15.0, 11.5, 20.0, 60.0)
  ]

  /** The identifiers in the order the profile selector lists them; the first
      one is selected when the window opens. */
  const SelectorKeys: seq<string> := ["vacina", "insulina", "reagente", "solucao", "antibiotico"]

  /** `PROFILES.get(key)`: the profile for a known identifier, nothing otherwise.
      Every profile it can return is well formed. */
  function Lookup(key: string): (r: Option<Profile>)
    ensures r.Some? <==> key in SelectorKeys
    ensures r.Some? ==> WellFormed(r.value)
  {
    if key in Table then Some(Table[key]) else None
  }
}
