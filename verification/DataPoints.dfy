/** DataPoints and the class hierarchy that scheduling matches them by. */
module DataPoints {
  import opened Prelude

  /** A Python class: its name and the names in its method resolution order, its own included. */
  datatype Class = Class(name: string, mro: set<string>)

  predicate IsSubclass(sub: Class, sup: Class) {
    sup.name in sub.mro
  }

  /** The keyed-merge identity: class and normalised value, timestamps excluded. */
  datatype Identity = Identity(kind: Class, value: string)

  datatype DataPoint = DataPoint(identity: Identity, retrievedBy: string, firstRetrieved: int, lastRetrieved: int) {
    function Reobserved(at: int): DataPoint {
      this.(lastRetrieved := Max(lastRetrieved, at))
    }
  }

  type View = map<Identity, DataPoint>
}
