/**
 * The supporting sources the edge functions receive in their request body: a link or
 * an uploaded document, each with a type, a display name and a value.  A property that
 * the request leaves out is represented by the empty string.
 */
module Sources {

  datatype SupportingSource = SupportingSource(
    kind: string,   // the `type` property, "url" or "file"
    name: string,   // the display name of an uploaded document
    value: string)  // the address of a link
}
