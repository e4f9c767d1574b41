/**
 * The hierarchical configuration the registrars read (IConfiguration /
 * IConfigurationSection): a tree of keyed sections, each with an optional
 * string value and ordered children. Key lookup ignores case.
 */
module Configuration {
  import opened Wrappers
  import opened Text

  /** A configuration section: its key (the last path segment as the provider
      reports it), its value (null for a pure container) and its children in
      the order GetChildren() enumerates them. The root has key "". */
  datatype Section = Section(key: string, value: Option<string>, children: seq<Section>)

  /** The section GetSection returns for a key that is not there: no value, no children. */
  function Missing(key: string): (r: Section)
    ensures r.value.None? && r.children == []
  {
    Section(key, None, [])
  }

  /** The first child whose key equals `key` ignoring case. */
  function FindChild(children: seq<Section>, key: string): (r: Option<Section>)
    ensures r.Some? ==> r.value in children && EqualsIgnoreCase(r.value.key, key)
    ensures r.None? ==> forall c :: c in children ==> !EqualsIgnoreCase(c.key, key)
  {
    if children == [] then None
    else if EqualsIgnoreCase(children[0].key, key) then Some(children[0])
    else FindChild(children[1..], key)
  }

  /** configuration.GetSection(key): the child section, or an empty one. */
  function GetSection(parent: Section, key: string): (r: Section)
    ensures FindChild(parent.children, key).Some? ==> r == FindChild(parent.children, key).value
    ensures FindChild(parent.children, key).None? ==> r == Missing(key)
  {
    match FindChild(parent.children, key)
    case Some(s) => s
    case None => Missing(key)
  }

  /** configuration[key]: the child's value, or null. */
  function Get(parent: Section, key: string): (r: Option<string>)
    ensures r.Some? ==> exists c :: c in parent.children && EqualsIgnoreCase(c.key, key) && c.value == r
  {
    GetSection(parent, key).value
  }

  /** A child whose key differs from `key` (ignoring case) placed first changes nothing a lookup of `key` sees. */
  lemma GetSectionSkipsOtherChild(parent: Section, extra: Section, key: string)
    requires !EqualsIgnoreCase(extra.key, key)
    ensures GetSection(Section(parent.key, parent.value, [extra] + parent.children), key) == GetSection(parent, key)
  {
    assert ([extra] + parent.children)[1..] == parent.children;
  }
}
