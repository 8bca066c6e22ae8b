/** Situations: feature names to values, compared and grouped by the features one asks for. */
module Situations {
  type Situation = map<string, string>

  function Project(s: Situation, names: set<string>): Situation {
    map f | f in s && f in names :: s[f]
  }

  datatype Observation = Observation(situation: Situation, action: string, recovered: bool, source: string)
}
