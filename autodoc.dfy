// `autodoc_skip_member` (doc/build/builder/builders.py): the Sphinx autodoc
// hook that documents a handful of special methods when they carry a docstring.

module Autodoc {

  datatype Option<T> = None | Some(value: T)

  /** The special members the hook may bring back. */
  const SpecialMembers: seq<string> := ["__init__", "__eq__", "__ne__", "__lt__", "__le__"]

  /** `obj.__doc__` is truthy: present and not the empty string. */
  predicate HasDocstring(doc: Option<string>)
  {
    doc.Some? && doc.value != ""
  }

  /** The hook's answer for a member `name` of an entity of kind `what`,
      where `doc` is the member's docstring and `skip` Sphinx's own
      decision. It can only turn "skip" into "document", and does so exactly
      for a documented special member of a class. */
  function SkipMember(what: string, name: string, doc: Option<string>, skip: bool): (r: bool)
    ensures r ==> skip
    ensures r != skip <==> what == "class" && skip && name in SpecialMembers && HasDocstring(doc)
  {
    if what == "class" && skip && name in SpecialMembers && HasDocstring(doc) then false else skip
  }

  /** A documented `__init__` of a class is documented; the same member
      without a docstring stays skipped; a member Sphinx keeps is kept. */
  lemma SkipMemberExamples()
    ensures !SkipMember("class", "__init__", Some("Construct a new Table."), true)
    ensures SkipMember("class", "__init__", Some(""), true)
    ensures SkipMember("class", "__init__", None, true)
    ensures SkipMember("module", "__init__", Some("Docs."), true)
    ensures !SkipMember("class", "__repr__", Some("Docs."), false)
  {
    assert SpecialMembers[0] == "__init__";
  }
}
