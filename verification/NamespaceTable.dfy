/** The namespaces map and the connect gate of a namespace: what their critical sections do. */
module NamespaceTable {
  import opened Bytes

  /** `closed` is the waitConnected channel, `spent` the Once that guards it, `closes` how often it was closed. */
  datatype Gate = Gate(closed: bool, spent: bool, closes: nat)

  const SHUT := Gate(false, false, 0)

  /** hadConnected.Do(close(waitConnected)) */
  function Open(g: Gate): Gate {
    if g.spent then g else Gate(true, true, g.closes + 1)
  }

  /** A gate that only Open has touched. */
  predicate GateOk(g: Gate) {
    g.spent == g.closed && g.closes == if g.closed then 1 else 0
  }

  /** The entry of a name, which is `ifNew` if there was none. */
  function GetOrCreate<T>(names: map<Bytes, T>, name: Bytes, ifNew: T): (map<Bytes, T>, T) {
    if name in names then (names, names[name]) else (names[name := ifNew], ifNew)
  }

  /** However often a gate is opened, it is closed once. */
  lemma OpenOnce(g: Gate)
    requires GateOk(g)
    ensures GateOk(Open(g)) && Open(g).closed && Open(Open(g)) == Open(g)
  {
  }

  /** What is in the map stays, and what comes out of the call is in it. */
  lemma NeverReplaced<T>(names: map<Bytes, T>, name: Bytes, ifNew: T, other: Bytes)
    ensures GetOrCreate(names, name, ifNew).0[name] == GetOrCreate(names, name, ifNew).1
    ensures other in names ==>
              other in GetOrCreate(names, name, ifNew).0 && GetOrCreate(names, name, ifNew).0[other] == names[other]
  {
  }
}
