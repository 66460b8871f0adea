/**
 * The published status: the string written under the private-data key "__muted__",
 * and how a reader of that slot recovers the source name and the mute flag from it.
 */
module Output {
  import opened Wrappers

  const MutedKey := "__muted__"
  const MutedSuffix := " is muted"
  const UnmutedSuffix := " is unmuted"

  datatype Status = Status(sourceName: string, muted: bool)

  /** The text write_output builds for a mute flag. */
  function StatusText(sourceName: string, muted: bool): (text: string)
    // the source name comes first, the suffix of the flag last
    ensures |text| > |sourceName| && text[..|sourceName|] == sourceName
    ensures muted <==> text[|sourceName|..] == MutedSuffix
    ensures !muted <==> text[|sourceName|..] == UnmutedSuffix
  {
    sourceName + (if muted then MutedSuffix else UnmutedSuffix)
  }

  /** What an external reader of the slot recovers: the name before the suffix and the flag. */
  function ParseStatus(text: string): (r: Option<Status>)
    ensures r.Some? ==> StatusText(r.value.sourceName, r.value.muted) == text
  {
    var n := |text|;
    if n >= |UnmutedSuffix| && text[n - |UnmutedSuffix|..] == UnmutedSuffix then
      assert text == text[..n - |UnmutedSuffix|] + UnmutedSuffix;
      Some(Status(text[..n - |UnmutedSuffix|], false))
    else if n >= |MutedSuffix| && text[n - |MutedSuffix|..] == MutedSuffix then
      assert text == text[..n - |MutedSuffix|] + MutedSuffix;
      Some(Status(text[..n - |MutedSuffix|], true))
    else
      None
  }

  /** Every published status reads back as the name and flag it was written from. */
  lemma ParseStatusText(sourceName: string, muted: bool)
    ensures ParseStatus(StatusText(sourceName, muted)) == Some(Status(sourceName, muted))
  {
    var text := StatusText(sourceName, muted);
    var n := |text|;
    if muted {
      assert text == sourceName + MutedSuffix;
      if n >= |UnmutedSuffix| {
        // " is muted" starts with a blank where " is unmuted" has an 's'
        assert text[n - |MutedSuffix|] == ' ';
        assert text[n - |UnmutedSuffix|..][2] == text[n - |MutedSuffix|];
        assert UnmutedSuffix[2] == 's';
      }
      assert text[n - |MutedSuffix|..] == MutedSuffix;
      assert text[..n - |MutedSuffix|] == sourceName;
    } else {
      assert text == sourceName + UnmutedSuffix;
      assert text[n - |UnmutedSuffix|..] == UnmutedSuffix;
      assert text[..n - |UnmutedSuffix|] == sourceName;
    }
  }

  /** Distinct (name, flag) pairs never publish the same string. */
  lemma StatusTextInjective(a: string, ma: bool, b: string, mb: bool)
    requires StatusText(a, ma) == StatusText(b, mb)
    ensures a == b && ma == mb
  {
    ParseStatusText(a, ma);
    ParseStatusText(b, mb);
  }
}
