/** The optional value used wherever a field, a lookup or a collaborator's
    answer may be absent. */
module Wrappers {

  datatype Option<+T> = None | Some(value: T)

  /** JavaScript truthiness of a field that is either absent (undefined or
      null) or a string: only a present, non-empty string is truthy. */
  predicate Truthy(field: Option<string>) {
    field.Some? && field.value != ""
  }
}

/** Facts about strings built by concatenating a fixed prefix, a variable
    part and a fixed suffix, as the template strings of both routes do. */
module Affixes {

  /** The variable part can be read back from the concatenation. */
  lemma {:induction false} MiddleRecoverable(prefix: string, middle: string, suffix: string)
    ensures |prefix + middle + suffix| == |prefix| + |middle| + |suffix|
    ensures (prefix + middle + suffix)[|prefix|..|prefix| + |middle|] == middle
  {
  }

  /** Concatenation with a fixed prefix and suffix is injective in the
      middle part, in both directions. */
  lemma {:induction false} AffixedInjective(prefix: string, a: string, b: string, suffix: string)
    ensures prefix + a + suffix == prefix + b + suffix <==> a == b
  {
    if prefix + a + suffix == prefix + b + suffix {
      MiddleRecoverable(prefix, a, suffix);
      MiddleRecoverable(prefix, b, suffix);
    }
  }
}
