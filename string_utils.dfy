/** `StringUtils.Truncate`: cut a string to `maxLength` characters and mark the
    cut with a suffix. A null suffix concatenates as the empty string. */
module StringUtils {
  import opened Text

  /** A negative `maxLength` makes the range slice `input[..maxLength]` throw,
      and every caller passes a positive constant, so it is excluded. */
  function Truncate(input: String, maxLength: int, suffix: String): (r: String)
    requires maxLength >= 0
    ensures |input| <= maxLength ==> r == input
    ensures |input| > maxLength ==> |r| == maxLength + |suffix| && EndsWith(r, suffix)
    ensures StartsWith(r, input[..if |input| < maxLength then |input| else maxLength])
  {
    if |input| <= maxLength then input else input[..maxLength] + suffix
  }

  /** With an empty suffix a truncated string is no longer than the bound, so
      truncating it again changes nothing. */
  lemma TruncateIdempotent(input: String, maxLength: int)
    requires maxLength >= 0
    ensures Truncate(Truncate(input, maxLength, ""), maxLength, "") == Truncate(input, maxLength, "")
  {
  }
}

/** `SchemaUtils.GetToolName`: the tool name of a schema type is its type name
    without the conventional "Schema" suffix. */
module SchemaUtils {
  import opened Text

  const SchemaSuffix: String := "Schema"

  function GetToolName(typeName: String): (r: String)
    ensures EndsWith(typeName, SchemaSuffix) ==> r + SchemaSuffix == typeName
    ensures !EndsWith(typeName, SchemaSuffix) ==> r == typeName
    ensures |r| <= |typeName|
  {
    if EndsWith(typeName, SchemaSuffix) then typeName[..|typeName| - 6] else typeName
  }

  /** A name ending in "Schema" loses exactly six characters, and "Schema" on
      its own names the empty tool. */
  lemma {:induction false} GetToolNameDropsSix(typeName: String)
    requires EndsWith(typeName, SchemaSuffix)
    ensures |GetToolName(typeName)| == |typeName| - 6
    ensures GetToolName(SchemaSuffix) == []
  {
    assert EndsWith(SchemaSuffix, SchemaSuffix);
  }

  /** Appending the suffix to any tool name and stripping it again is the identity:
      the registry key of `<Name>Schema` is `<Name>`. */
  lemma {:induction false} GetToolNameRoundTrip(toolName: String)
    ensures GetToolName(toolName + SchemaSuffix) == toolName
  {
    var t := toolName + SchemaSuffix;
    assert t[|t| - 6..] == SchemaSuffix;
    assert t[..|t| - 6] == toolName;
  }
}
