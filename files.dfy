/** Files picked in a file input (`File` objects), kept opaque. */
module Files {

  /** A picked file; the model only reads its `name`. */
  datatype Attachment = Attachment(name: string)
}
