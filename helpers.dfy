/** The project-name validator used by the interactive prompt. */
module Helpers {
  import opened Wrappers

  const NameRequired := "Project name is required"
  const NameCharset := "Only letters, numbers, hyphens, and underscores allowed"

  /** One character of the class `[a-z0-9-_]` matched case-insensitively (ASCII only). */
  predicate IsNameChar(c: char) {
    ('a' <= c <= 'z') || ('A' <= c <= 'Z') || ('0' <= c <= '9') || c == '-' || c == '_'
  }

  /** The whole name matches `^[a-z0-9-_]+$` with the `i` flag. */
  predicate MatchesNamePattern(name: string) {
    |name| > 0 && forall i :: 0 <= i < |name| ==> IsNameChar(name[i])
  }

  function ExistsMessage(name: string): string {
    "Directory \"" + name + "\" already exists"
  }

  /**
   * Validates a project name. The directory-exists query on the host is
   * the parameter `dirExists`. `None` means the name is accepted
   * (the source returns `undefined`); otherwise the message of the first
   * check that fails, in the order empty, charset, exists.
   */
  function ValidateProjectName(name: string, dirExists: bool): (r: Option<string>)
    ensures r == None <==> (name != [] && MatchesNamePattern(name) && !dirExists)
    ensures name == [] ==> r == Some(NameRequired)
    ensures name != [] && !MatchesNamePattern(name) ==> r == Some(NameCharset)
    ensures name != [] && MatchesNamePattern(name) && dirExists ==> r == Some(ExistsMessage(name))
  {
    if name == [] then Some(NameRequired)
    else if exists i :: 0 <= i < |name| && !IsNameChar(name[i]) then Some(NameCharset)
    else if dirExists then Some(ExistsMessage(name))
    else None
  }
}
