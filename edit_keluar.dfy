/**
 * The "edit outgoing goods" modal (ModalForm in editkeluar).
 *
 * `updatedData` starts as the record being edited; only the recipient
 * input is editable, replacing that one field via a spread. Submitting
 * builds a PUT to `/keluar/<idkeluar>` only when the record has an id, and
 * closes the modal in every case.
 */
module EditKeluar {
  import opened Common

  /** The outgoing-goods record the modal edits. */
  datatype KeluarEdit = KeluarEdit(idkeluar: string, idbarang: string, nama_barang: string,
                                   penerima: string, jumlah: int, tanggal: string)

  /** A PUT to `/keluar/<id>` carrying the whole edited record as its JSON body. */
  datatype PutRequest = PutRequest(id: string, body: KeluarEdit)

  /** `{ ...d, penerima: v }` */
  function WithPenerima(d: KeluarEdit, v: string): (r: KeluarEdit)
    ensures r.penerima == v
    ensures r.idkeluar == d.idkeluar && r.idbarang == d.idbarang && r.nama_barang == d.nama_barang
    ensures r.jumlah == d.jumlah && r.tanggal == d.tanggal
  {
    d.(penerima := v)
  }

  /** Editing the recipient twice keeps only the last value. */
  lemma LastEditWins(d: KeluarEdit, v: string, w: string)
    ensures WithPenerima(WithPenerima(d, v), w) == WithPenerima(d, w)
    ensures WithPenerima(d, d.penerima) == d
  {
  }

  /**
   * `handleSubmit`'s guard: a PUT for the id of `editData`, carrying
   * `updatedData`, exactly when that id is non-empty.
   */
  function SubmitRequest(editData: KeluarEdit, updatedData: KeluarEdit): (req: Option<PutRequest>)
    ensures req.Some? <==> editData.idkeluar != ""
    ensures req.Some? ==> req.value.id == editData.idkeluar && req.value.body == updatedData
  {
    if editData.idkeluar != "" then Some(PutRequest(editData.idkeluar, updatedData)) else None
  }

  /** The modal's state: the record it was opened with, the edited copy, and the `onClose` calls made. */
  class EditKeluarForm {
    const editData: KeluarEdit
    var updatedData: KeluarEdit
    var closeCalls: nat

    /** Only the recipient can have been edited. */
    ghost predicate Valid()
      reads this
    {
      updatedData == editData.(penerima := updatedData.penerima)
    }

    constructor (editData: KeluarEdit)
      ensures Valid()
      ensures this.editData == editData && updatedData == editData && closeCalls == 0
    {
      this.editData := editData;
      updatedData := editData;
      closeCalls := 0;
    }

    /** The recipient input's `onChange`. */
    method SetPenerima(v: string)
      requires Valid()
      modifies this`updatedData
      ensures Valid()
      ensures updatedData == WithPenerima(old(updatedData), v)
    {
      updatedData := updatedData.(penerima := v);
    }

    /**
     * `handleSubmit`: the PUT that is sent (if any), whose URL id is the id
     * in its body; `onClose` is called once whatever happens.
     */
    method HandleSubmit() returns (req: Option<PutRequest>)
      requires Valid()
      modifies this`closeCalls
      ensures req == SubmitRequest(editData, updatedData)
      ensures req.Some? ==> req.value.body.idkeluar == req.value.id
      ensures req.Some? ==>
        && req.value.body.nama_barang == editData.nama_barang
        && req.value.body.jumlah == editData.jumlah
        && req.value.body.tanggal == editData.tanggal
      ensures closeCalls == old(closeCalls) + 1
    {
      req := None;
      if editData.idkeluar != "" {
        req := Some(PutRequest(editData.idkeluar, updatedData));
      }
      closeCalls := closeCalls + 1;
    }
  }
}
