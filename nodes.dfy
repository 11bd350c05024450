/**
 * The llama_index values the engine passes around: the pages the PDF reader
 * yields, the nodes stored in the shared vector store, and the metadata keys
 * the application reads from them.
 */
module Nodes {
  import opened Wrappers

  /** Node and page metadata: string keys to string values. */
  type Metadata = map<string, string>

  /** `DB_DOC_ID_KEY`: the metadata key that tags content with the owning document's id. */
  const DbDocIdKey: string := "db_document_id"

  /** The metadata key under which the PDF reader records a page's label. */
  const PageLabelKey: string := "page_label"

  /** A llama_index Document as the PDF reader yields it: one page of text and its metadata. */
  datatype Page = Page(text: string, metadata: Metadata)

  /**
   * A node in the vector store. `source` is the metadata of the node's SOURCE
   * relationship (the page it was cut from), None when it has no source.
   */
  datatype Node = Node(text: string, metadata: Metadata, source: Option<Metadata>)

  /** A retrieved node with its similarity score, an opaque value computed outside the model. */
  datatype NodeWithScore = NodeWithScore(node: Node, score: Option<real>)
}
