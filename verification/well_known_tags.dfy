/** The custom tags a diagnostic descriptor can carry that the analysis host
    gives a meaning to, and counting of tags in a tag sequence. */
module WellKnownDiagnosticTags {

  /** Marks a rule whose diagnostics are reported to usage telemetry. */
  const Telemetry: string := "Telemetry"

  /** Marks a rule whose severity the user cannot change. */
  const NotConfigurable: string := "NotConfigurable"

  /** Marks a rule that reports unnecessary (fadeable) code. */
  const Unnecessary: string := "Unnecessary"

  /** The three well-known tags are pairwise different strings, so a tag
      sequence can be read back unambiguously. */
  lemma TagsDistinct()
    ensures Telemetry != NotConfigurable
    ensures Telemetry != Unnecessary
    ensures NotConfigurable != Unnecessary
  {}

  /** How many times `tag` occurs in `tags`. */
  function Occurrences(tags: seq<string>, tag: string): (n: nat)
    ensures n <= |tags|
  {
    if tags == [] then 0
    else (if tags[0] == tag then 1 else 0) + Occurrences(tags[1..], tag)
  }

  /** The count agrees with the multiplicity of the tag in the multiset of
      the sequence. */
  lemma {:induction false} OccurrencesIsMultiplicity(tags: seq<string>, tag: string)
    ensures Occurrences(tags, tag) == multiset(tags)[tag]
  {
    if tags != [] {
      OccurrencesIsMultiplicity(tags[1..], tag);
      assert tags == [tags[0]] + tags[1..];
    }
  }

  /** A tag is counted at least once exactly when it is present. */
  lemma {:induction false} OccurrencesPositive(tags: seq<string>, tag: string)
    ensures Occurrences(tags, tag) > 0 <==> tag in tags
  {
    if tags != [] {
      OccurrencesPositive(tags[1..], tag);
      assert tags == [tags[0]] + tags[1..];
    }
  }

  /** Counting distributes over concatenation: nothing is merged or lost
      when two tag sequences are joined. */
  lemma {:induction false} OccurrencesAppend(a: seq<string>, b: seq<string>, tag: string)
    ensures Occurrences(a + b, tag) == Occurrences(a, tag) + Occurrences(b, tag)
  {
    if a == [] {
      assert a + b == b;
    } else {
      assert (a + b)[1..] == a[1..] + b;
      OccurrencesAppend(a[1..], b, tag);
    }
  }
}
