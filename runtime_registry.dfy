/**
 * The runtime registry of Sources/AsyncAPIBuilder/RuntimeRegistry.swift: a
 * single slot holding the current document, where the latest write wins.
 */
module RuntimeRegistries {
  import opened Wrappers
  import opened AsyncAPIModel

  /** `RuntimeRegistry`, taken as a sequential object. */
  class RuntimeRegistry {
    var document: Option<AsyncAPI>

    /** A fresh registry holds no document. */
    constructor ()
      ensures document == None
    {
      document := None;
    }

    /** `setDocument`: replaces whatever the slot held. */
    method SetDocument(d: AsyncAPI)
      modifies this
      ensures document == Some(d)
    {
      document := Some(d);
    }

    /** `getDocument`: the slot's content, absent until a document was set; nothing changes. */
    method GetDocument() returns (d: Option<AsyncAPI>)
      ensures d == document
    {
      d := document;
    }
  }

  /** Two writes and a read: the read sees the later write, and a read of a fresh registry sees nothing. */
  method LastWriteWins(first: AsyncAPI, second: AsyncAPI) returns (before: Option<AsyncAPI>, after: Option<AsyncAPI>)
    ensures before == None
    ensures after == Some(second)
  {
    var registry := new RuntimeRegistry();
    before := registry.GetDocument();
    registry.SetDocument(first);
    registry.SetDocument(second);
    after := registry.GetDocument();
  }
}
