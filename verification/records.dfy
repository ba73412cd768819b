/** The records the external agent emits and the cache stores (all optional fields kept). */
module Records {
  import opened Wrappers

  datatype Account = Account(name: string, backend: Option<string>, default: Option<bool>)

  datatype Folder = Folder(name: string, desc: Option<string>)

  datatype Contact = Contact(name: Option<string>, addr: Option<string>)

  /** `id` is the join key between the envelope list, the metadata file and the message body. */
  datatype Envelope = Envelope(
    id: string,
    flags: Option<seq<string>>,
    subject: Option<string>,
    from: Option<Contact>,
    to: Option<Contact>,
    date: Option<string>,
    hasAttachment: Option<bool>)
}
