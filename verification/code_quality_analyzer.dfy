/** Construction of the descriptors of code-quality rules: the caller's
    tags are kept in order and followed by tags derived from the rule's
    flags; category and severity are fixed. */
module CodeQualityAnalyzer {

  import opened Options
  import opened WellKnownDiagnosticTags
  import opened Diagnostics

  /** The two flags of a rule that the descriptor encodes as tags only. */
  datatype RuleFlags = RuleFlags(isUnnecessary: bool, isConfigurable: bool)

  /** The tags appended after the caller's: Telemetry always, then
      NotConfigurable for a rule the user cannot configure, then Unnecessary
      for a rule about unnecessary code. */
  function DerivedTags(isUnnecessary: bool, isConfigurable: bool): (tags: seq<string>)
    ensures |tags| == 1 + (if isConfigurable then 0 else 1) + (if isUnnecessary then 1 else 0)
    ensures tags[0] == Telemetry
    ensures NotConfigurable in tags <==> !isConfigurable
    ensures Unnecessary in tags <==> isUnnecessary
    ensures isUnnecessary ==> tags[|tags| - 1] == Unnecessary
    ensures !isConfigurable ==> tags[1] == NotConfigurable
  {
    [Telemetry]
      + (if isConfigurable then [] else [NotConfigurable])
      + (if isUnnecessary then [Unnecessary] else [])
  }

  /** The descriptor of a code-quality rule built from its identity, its
      messages, its flags and the caller's extra tags. */
  function CreateDescriptor(
    id: string,
    title: LocalizableString,
    messageFormat: LocalizableString,
    isUnnecessary: bool,
    isEnabledByDefault: bool,
    isConfigurable: bool,
    customTags: seq<string>): (d: DiagnosticDescriptor)
    // fixed classification, whatever the inputs
    ensures d.category == CodeQualityCategory
    ensures d.defaultSeverity == Info
    // identity, messages and enablement pass through
    ensures d.id == id && d.title == title && d.messageFormat == messageFormat
    ensures d.isEnabledByDefault == isEnabledByDefault
    // the caller's tags come first, unchanged and in order
    ensures |customTags| < |d.customTags|
    ensures d.customTags[..|customTags|] == customTags
    // Telemetry directly after them
    ensures d.customTags[|customTags|] == Telemetry
    // one derived tag per set flag, and nothing is deduplicated
    ensures |d.customTags| == |customTags| + 1
                              + (if isConfigurable then 0 else 1)
                              + (if isUnnecessary then 1 else 0)
    ensures NotConfigurable in d.customTags[|customTags|..] <==> !isConfigurable
    ensures Unnecessary in d.customTags[|customTags|..] <==> isUnnecessary
    // NotConfigurable before Unnecessary, Unnecessary last
    ensures !isConfigurable ==> d.customTags[|customTags| + 1] == NotConfigurable
    ensures isUnnecessary ==> d.customTags[|d.customTags| - 1] == Unnecessary
  {
    DiagnosticDescriptor(
      id, title, messageFormat,
      CodeQualityCategory,
      Info,
      isEnabledByDefault,
      customTags + DerivedTags(isUnnecessary, isConfigurable))
  }

  /** `CreateDescriptor` called with its optional parameters omitted: the
      rule is enabled by default, configurable, and has no extra tags. */
  function CreateDescriptorWithDefaults(
    id: string,
    title: LocalizableString,
    messageFormat: LocalizableString,
    isUnnecessary: bool): (d: DiagnosticDescriptor)
    ensures d.isEnabledByDefault
    ensures d.category == CodeQualityCategory && d.defaultSeverity == Info
    ensures d.customTags == if isUnnecessary then [Telemetry, Unnecessary] else [Telemetry]
  {
    CreateDescriptor(id, title, messageFormat, isUnnecessary, true, true, [])
  }

  /** Reads the flags back from the derived part of a tag sequence, in the
      order they were appended; `None` when the sequence is not one that
      `DerivedTags` produces. */
  function DecodeDerivedTags(suffix: seq<string>): (r: Option<RuleFlags>)
    ensures r.Some? ==> suffix == DerivedTags(r.value.isUnnecessary, r.value.isConfigurable)
  {
    if |suffix| == 0 || suffix[0] != Telemetry then None
    else
      var notConfigurable := |suffix| > 1 && suffix[1] == NotConfigurable;
      var rest := if notConfigurable then suffix[2..] else suffix[1..];
      if rest == [] then Some(RuleFlags(false, !notConfigurable))
      else if rest == [Unnecessary] then Some(RuleFlags(true, !notConfigurable))
      else None
  }

  /** Reads the flags back from a descriptor, given how many tags the
      caller supplied. */
  function ReadFlags(d: DiagnosticDescriptor, customTagCount: nat): Option<RuleFlags>
  {
    if customTagCount <= |d.customTags|
    then DecodeDerivedTags(d.customTags[customTagCount..])
    else None
  }

  /** Decoding inverts the derivation: the flags are recovered exactly. */
  lemma DecodeDerivedTagsRoundTrip(isUnnecessary: bool, isConfigurable: bool)
    ensures DecodeDerivedTags(DerivedTags(isUnnecessary, isConfigurable))
            == Some(RuleFlags(isUnnecessary, isConfigurable))
  {
  }

  /** Different flags give different derived tags, so a descriptor always
      determines its rule's flags. */
  lemma DerivedTagsInjective(u1: bool, c1: bool, u2: bool, c2: bool)
    ensures DerivedTags(u1, c1) == DerivedTags(u2, c2) <==> u1 == u2 && c1 == c2
  {
  }

  /** The flags given to `CreateDescriptor` are read back from its tags,
      whatever the caller's tags are. */
  lemma CreateDescriptorReadBack(
    id: string, title: LocalizableString, messageFormat: LocalizableString,
    isUnnecessary: bool, isEnabledByDefault: bool, isConfigurable: bool,
    customTags: seq<string>)
    ensures ReadFlags(
              CreateDescriptor(id, title, messageFormat, isUnnecessary,
                               isEnabledByDefault, isConfigurable, customTags),
              |customTags|)
            == Some(RuleFlags(isUnnecessary, isConfigurable))
  {
  }

  /** A host that looks for a flag tag anywhere in the descriptor's tags
      reads the flags correctly as long as the caller did not supply that
      tag itself. */
  lemma HostReadsFlagsByMembership(
    id: string, title: LocalizableString, messageFormat: LocalizableString,
    isUnnecessary: bool, isEnabledByDefault: bool, isConfigurable: bool,
    customTags: seq<string>)
    ensures var d := CreateDescriptor(id, title, messageFormat, isUnnecessary,
                                      isEnabledByDefault, isConfigurable, customTags);
            && Telemetry in d.customTags
            && (NotConfigurable !in customTags ==>
                  (NotConfigurable in d.customTags <==> !isConfigurable))
            && (Unnecessary !in customTags ==>
                  (Unnecessary in d.customTags <==> isUnnecessary))
  {
    var d := CreateDescriptor(id, title, messageFormat, isUnnecessary,
                              isEnabledByDefault, isConfigurable, customTags);
    CreateDescriptorTagCounts(id, title, messageFormat, isUnnecessary,
                              isEnabledByDefault, isConfigurable, customTags);
    OccurrencesPositive(d.customTags, Telemetry);
    OccurrencesPositive(d.customTags, NotConfigurable);
    OccurrencesPositive(customTags, NotConfigurable);
    OccurrencesPositive(d.customTags, Unnecessary);
    OccurrencesPositive(customTags, Unnecessary);
  }

  /** Each well-known tag occurs in the derived tags exactly once when its
      flag asks for it (Telemetry always) and not at all otherwise. */
  lemma DerivedTagsOccurrences(isUnnecessary: bool, isConfigurable: bool)
    ensures Occurrences(DerivedTags(isUnnecessary, isConfigurable), Telemetry) == 1
    ensures Occurrences(DerivedTags(isUnnecessary, isConfigurable), NotConfigurable)
            == if isConfigurable then 0 else 1
    ensures Occurrences(DerivedTags(isUnnecessary, isConfigurable), Unnecessary)
            == if isUnnecessary then 1 else 0
  {
    TagsDistinct();
    var derived := DerivedTags(isUnnecessary, isConfigurable);
    var flagTags := derived[1..];
    assert derived == [Telemetry] + flagTags;
    OccurrencesAppend([Telemetry], flagTags, Telemetry);
    OccurrencesAppend([Telemetry], flagTags, NotConfigurable);
    OccurrencesAppend([Telemetry], flagTags, Unnecessary);
    if !isConfigurable {
      assert flagTags == [NotConfigurable] + flagTags[1..];
      OccurrencesAppend([NotConfigurable], flagTags[1..], NotConfigurable);
    }
  }

  /** No deduplication: every tag occurs in the result as often as in the
      caller's tags plus the derived ones, so a caller tag equal to
      Telemetry yields two Telemetry entries. */
  lemma CreateDescriptorKeepsDuplicates(
    id: string, title: LocalizableString, messageFormat: LocalizableString,
    isUnnecessary: bool, isEnabledByDefault: bool, isConfigurable: bool,
    customTags: seq<string>, tag: string)
    ensures var d := CreateDescriptor(id, title, messageFormat, isUnnecessary,
                                      isEnabledByDefault, isConfigurable, customTags);
            && Occurrences(d.customTags, tag)
               == Occurrences(customTags, tag) + Occurrences(DerivedTags(isUnnecessary, isConfigurable), tag)
            && multiset(d.customTags) == multiset(customTags) + multiset(DerivedTags(isUnnecessary, isConfigurable))
  {
    OccurrencesAppend(customTags, DerivedTags(isUnnecessary, isConfigurable), tag);
  }

  /** The occurrence counts of the well-known tags in a descriptor: one
      more Telemetry than the caller gave, and one more NotConfigurable or
      Unnecessary exactly when the corresponding flag asks for it. */
  lemma CreateDescriptorTagCounts(
    id: string, title: LocalizableString, messageFormat: LocalizableString,
    isUnnecessary: bool, isEnabledByDefault: bool, isConfigurable: bool,
    customTags: seq<string>)
    ensures var d := CreateDescriptor(id, title, messageFormat, isUnnecessary,
                                      isEnabledByDefault, isConfigurable, customTags);
            && Occurrences(d.customTags, Telemetry) == Occurrences(customTags, Telemetry) + 1
            && Occurrences(d.customTags, NotConfigurable)
               == Occurrences(customTags, NotConfigurable) + (if isConfigurable then 0 else 1)
            && Occurrences(d.customTags, Unnecessary)
               == Occurrences(customTags, Unnecessary) + (if isUnnecessary then 1 else 0)
  {
    DerivedTagsOccurrences(isUnnecessary, isConfigurable);
    CreateDescriptorKeepsDuplicates(id, title, messageFormat, isUnnecessary,
                                    isEnabledByDefault, isConfigurable, customTags, Telemetry);
    CreateDescriptorKeepsDuplicates(id, title, messageFormat, isUnnecessary,
                                    isEnabledByDefault, isConfigurable, customTags, NotConfigurable);
    CreateDescriptorKeepsDuplicates(id, title, messageFormat, isUnnecessary,
                                    isEnabledByDefault, isConfigurable, customTags, Unnecessary);
  }
}
