/** The syncshell identity record: a group id and an optional vanity alias. */
module GroupData {
  import opened Text
  import opened Wrappers

  datatype GroupData = GroupData(gid: string, alias: Option<string>)

  /** `AliasOrGID`: the alias when it holds a non-whitespace character, else the id. */
  function AliasOrGID(g: GroupData): (r: string)
    ensures r == g.gid || (g.alias.Some? && r == g.alias.value)
    ensures g.alias.None? ==> r == g.gid
    ensures g.alias.Some? && IsBlank(g.alias.value) ==> r == g.gid
    ensures g.alias.Some? && !IsBlank(g.alias.value) ==> r == g.alias.value
  {
    match g.alias
    case None => g.gid
    case Some(a) => if IsBlank(a) then g.gid else a
  }
}
