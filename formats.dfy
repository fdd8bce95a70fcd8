/** Where the four writers agree and where they differ: the JSON and TOON
    writers share one dictionary, the Markdown and XML writers build their
    own output from the same inputs. */
module Formats {
  import opened Values
  import opened Records
  import opened Report
  import opened MarkdownReport
  import opened XmlReport
  import opened XmlTree

  /** With no branches the dictionary still holds `"branches": []`, while
      the Markdown report has no branch heading and the XML tree no
      `branches` element. */
  lemma EmptyBranches(g: GitData)
    requires g.branches == []
    ensures GitHistory(g).fields[1] == ("branches", Arr([]))
    ensures "### Branches\n" !in GitLines(g)
    ensures "branches" !in Tags(GitElement(g).children)
  {
    GitHistoryCaps(g);
    BranchesHeadingIff(g);
    GitChildTags(g);
  }

  /** The dictionary holds every metadata key of the language, defaults
      included; a Markdown line or XML element is written for a key exactly
      when the dictionary's value for it is truthy, since every default is
      falsy. */
  lemma ShownMatchesDictionary(doc: Document)
    ensures forall i :: 0 <= i < |Metadata(doc)| ==>
      (Truthy(Metadata(doc)[i].1) <==> Shown(doc, Metadata(doc)[i].0))
  {
    MetadataFollowsTable(doc);
  }

  /** The XML tree reports the metadata keys in the dictionary's order; the
      Markdown report uses the same keys but puts Python's classes before
      its functions. */
  lemma MetadataKeyOrders(doc: Document)
    ensures XmlMetaKeys(doc.language) == Keys(Metadata(doc))
    ensures doc.language == "python" ==>
      MarkdownMetaKeys(doc.language) == [Keys(Metadata(doc))[1], Keys(Metadata(doc))[0]]
    ensures doc.language != "python" ==> MarkdownMetaKeys(doc.language) == Keys(Metadata(doc))
  {
    MetadataFollowsTable(doc);
  }
}
