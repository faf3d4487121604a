/** The canonical chat message that every normalizer produces: an activity line,
    an icon URL and an ordered list of attachments, each holding ordered fields.
    Only the parts that the Confluence normalizer touches are modelled. */
module CommonChat {

  /** One titled value of an attachment; `short` asks the renderer to show it inline. */
  datatype Field = Field(title: string, value: string, short: bool)

  /** An attachment: its fields in the order they were added. */
  datatype Attachment = Attachment(fields: seq<Field>) {

    /** Appends `f` after every field already present; no field is dropped or reordered. */
    function AddField(f: Field): (r: Attachment)
      ensures |r.fields| == |fields| + 1
      ensures forall i :: 0 <= i < |fields| ==> r.fields[i] == fields[i]
      ensures r.fields[|fields|] == f
    {
      Attachment(fields + [f])
    }
  }

  /** A canonical message. */
  datatype Message = Message(iconURL: string, activity: string, attachments: seq<Attachment>) {

    /** Appends `a` after the attachments already present; nothing else changes. */
    function AddAttachment(a: Attachment): (r: Message)
      ensures r.iconURL == iconURL && r.activity == activity
      ensures |r.attachments| == |attachments| + 1
      ensures forall i :: 0 <= i < |attachments| ==> r.attachments[i] == attachments[i]
      ensures r.attachments[|attachments|] == a
    {
      this.(attachments := attachments + [a])
    }
  }

  /** The message a fresh constructor yields: every part empty. */
  const EmptyMessage := Message("", "", [])

  /** The attachment a fresh constructor yields: no fields. */
  const EmptyAttachment := Attachment([])
}
