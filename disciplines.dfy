/** The set of all disciplines. */
module DisciplineSets {
  import opened Registry

  /** The eight disciplines, `generic` included. */
  function DisciplineSet(): set<Discipline> {
    {Mathematics, Literature, Science, History, Geography, Languages, Arts, Generic}
  }

  lemma DisciplineSetSize()
    ensures |DisciplineSet()| == 8
  {
    var first := {Mathematics, Literature, Science, History};
    var second := {Geography, Languages, Arts, Generic};
    assert |first| == 4 && |second| == 4 && first * second == {};
    assert DisciplineSet() == first + second;
  }

  /** The table that maps every discipline `d` to `f(d)`. */
  function Tabulate<V>(f: Discipline -> V): (t: map<Discipline, V>)
    ensures t.Keys == DisciplineSet()
    ensures forall d | d in t :: t[d] == f(d)
  {
    map d | d in DisciplineSet() :: f(d)
  }

  lemma DisciplineSetComplete(d: Discipline)
    ensures d in DisciplineSet()
  {
    match d
    case Mathematics =>
    case Literature =>
    case Science =>
    case History =>
    case Geography =>
    case Languages =>
    case Arts =>
    case Generic =>
  }
}
