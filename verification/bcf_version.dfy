/** `bcf.version`: the root file of a BCF-XML 3.0 archive, naming the schema version. */
module BcfVersion {
  import opened Wrappers
  import opened Xml
  import opened BcfXml

  /**
   * The version document: a standalone UTF-8 XML 1.0 document whose only element is `Version`,
   * with `VersionId="3.0"` and the version.xsd schema location. It takes no input, so every
   * export writes the same document.
   */
  function Create(): (d: Document)
    ensures d.version == "1.0" && d.encoding == "UTF-8" && d.standalone
    ensures d.root.name == "Version" && d.root.children == [] && d.root.text == None
    ensures |d.root.attributes| == 3
    ensures AttributeValue(d.root.attributes, "VersionId") == Some("3.0")
    ensures AttributeValue(d.root.attributes, "xmlns:xsi") == Some(XsiNamespace)
    ensures AttributeValue(d.root.attributes, "xsi:noNamespaceSchemaLocation") == Some(VersionSchema)
  {
    var attributes := [
      Attribute("xmlns:xsi", XsiNamespace),
      Attribute("VersionId", "3.0"),
      Attribute("xsi:noNamespaceSchemaLocation", VersionSchema)];
    FirstAttribute(attributes, 0);
    FirstAttribute(attributes, 1);
    FirstAttribute(attributes, 2);
    Standalone(Element("Version", attributes, [], None))
  }
}
