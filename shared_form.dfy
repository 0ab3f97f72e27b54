/** The `formData` / `setFormData` pair the section components receive as
    props: one state cell holding the record, written by whole-record
    replacement. */
module SharedForm {

  import opened OrderRecord

  class FormCell {
    var formData: FormData

    constructor(init: FormData)
      ensures formData == init
    {
      formData := init;
    }
  }
}
