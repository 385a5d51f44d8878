/** Values shared by the session controls and the document viewer. */
module Types {

  /** A nullable value: `null` in the source is `None`. */
  datatype Option<+T> = None | Some(value: T)

  /** The two layouts of the document pane (the source's ViewMode enum). */
  datatype ViewMode = Presentation | Document

  /** A browser File object, known to the model only by its identity. */
  type FileHandle = nat
}
