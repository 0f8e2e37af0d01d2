/** Severity classes of a session. */
module Severity {

  // NoClass is the zero value of the class: it ranks lowest and is not a member of CLASSES.
  datatype Class = NoClass | Probe | Attack | Scan

  const CLASSES: seq<Class> := [Probe, Attack, Scan]

  function Rank(c: Class): nat {
    match c
    case NoClass => 0
    case Probe => 1
    case Attack => 2
    case Scan => 3
  }

  function Name(c: Class): string {
    match c
    case NoClass => ""
    case Probe => "probe"
    case Attack => "attack"
    case Scan => "scan"
  }
}
