/** The gateway's own table of commands: which are local-only, and which output marks them. */
module Commands {
  import opened Json
  import opened Tags

  const LOCAL_ONLY := ["add-dir", "agents", "branch", "color", "config", "copy", "compact", "effort", "export", "hooks",
                       "ide", "login", "logout", "mcp", "mobile", "model", "permissions", "plugin", "rename", "resume",
                       "sandbox", "skills"]

  const BRANCH_MARKERS := ["Branched conversation", "You are now in the branch", "claude -r "]
  const COMPACT_MARKER := "Compacted"
  const RENAME_MARKER := "Session renamed to:"

  const NAMESPACE := "gateway:"

  function TrimPrefix(s: string, prefix: string): string {
    if prefix <= s then s[|prefix|..] else s
  }

  function NormalizeCommandName(name: string): string {
    TrimPrefix(TrimPrefix(TrimText(name), "/"), NAMESPACE)
  }

  predicate Contains(s: string, marker: string) {
    Index(s, marker).Some?
  }

  function LocalOnlyCommand(name: string): Option<string> {
    if NormalizeCommandName(name) in LOCAL_ONLY then Some(NormalizeCommandName(name)) else None
  }

  /** The first command in the table all of whose markers are there. */
  function LocalOnlyStdout(stdout: string): Option<string> {
    if forall m | m in BRANCH_MARKERS :: Contains(stdout, m) then Some("branch")
    else if Contains(stdout, COMPACT_MARKER) then Some("compact")
    else if Contains(stdout, RENAME_MARKER) then Some("rename")
    else None
  }

  const GATEWAY := Table(LocalOnlyCommand, LocalOnlyStdout)
}
