/**
 * The "edit incoming goods" modal (ModalForm in editmasuk).
 *
 * `updatedData` starts as the record being edited; only the recipient and
 * the note inputs are editable, each replacing one field via a spread.
 * Submitting builds a PUT to `/masuk/<idbarang>` only when the record has
 * an id, and closes the modal in every case.
 */
module EditMasuk {
  import opened Common

  /** The incoming-goods record the modal edits. */
  datatype MasukEdit = MasukEdit(idbarang: string, idsupplier: string, nama_barang: string,
                                 penerima: string, nama_supplier: string, keterangan: string,
                                 konfir_jumlah: int, tanggal: string)

  /** A PUT to `/masuk/<id>` carrying the whole edited record as its JSON body. */
  datatype PutRequest = PutRequest(id: string, body: MasukEdit)

  /** `{ ...d, penerima: v }` */
  function WithPenerima(d: MasukEdit, v: string): (r: MasukEdit)
    ensures r.penerima == v && r.keterangan == d.keterangan
    ensures r.idbarang == d.idbarang && r.idsupplier == d.idsupplier && r.nama_barang == d.nama_barang
    ensures r.nama_supplier == d.nama_supplier && r.konfir_jumlah == d.konfir_jumlah && r.tanggal == d.tanggal
  {
    d.(penerima := v)
  }

  /** `{ ...d, keterangan: v }` */
  function WithKeterangan(d: MasukEdit, v: string): (r: MasukEdit)
    ensures r.keterangan == v && r.penerima == d.penerima
    ensures r.idbarang == d.idbarang && r.idsupplier == d.idsupplier && r.nama_barang == d.nama_barang
    ensures r.nama_supplier == d.nama_supplier && r.konfir_jumlah == d.konfir_jumlah && r.tanggal == d.tanggal
  {
    d.(keterangan := v)
  }

  /** `edited` differs from `original` at most in the recipient and the note. */
  predicate SameFacts(original: MasukEdit, edited: MasukEdit)
  {
    && edited.idbarang == original.idbarang && edited.idsupplier == original.idsupplier
    && edited.nama_barang == original.nama_barang && edited.nama_supplier == original.nama_supplier
    && edited.konfir_jumlah == original.konfir_jumlah && edited.tanggal == original.tanggal
  }

  /** Any sequence of the two edits keeps the record's facts. */
  lemma EditsKeepFacts(original: MasukEdit, edited: MasukEdit, penerima: string, keterangan: string)
    requires SameFacts(original, edited)
    ensures SameFacts(original, WithPenerima(edited, penerima))
    ensures SameFacts(original, WithKeterangan(edited, keterangan))
    ensures WithKeterangan(WithPenerima(edited, penerima), keterangan)
         == WithPenerima(WithKeterangan(edited, keterangan), penerima)
  {
  }

  /**
   * `handleSubmit`'s guard: a PUT for the id of `editData`, carrying
   * `updatedData`, exactly when that id is non-empty.
   */
  function SubmitRequest(editData: MasukEdit, updatedData: MasukEdit): (req: Option<PutRequest>)
    ensures req.Some? <==> editData.idbarang != ""
    ensures req.Some? ==> req.value.id == editData.idbarang && req.value.body == updatedData
  {
    if editData.idbarang != "" then Some(PutRequest(editData.idbarang, updatedData)) else None
  }

  /** The modal's state: the record it was opened with, the edited copy, and the `onClose` calls made. */
  class EditMasukForm {
    const editData: MasukEdit
    var updatedData: MasukEdit
    var closeCalls: nat

    /** Only the recipient and the note can have been edited. */
    ghost predicate Valid()
      reads this
    {
      SameFacts(editData, updatedData)
    }

    constructor (editData: MasukEdit)
      ensures Valid()
      ensures this.editData == editData && updatedData == editData && closeCalls == 0
    {
      this.editData := editData;
      updatedData := editData;
      closeCalls := 0;
    }

    /** The recipient input's `onChange`. */
    method SetPenerima(v: string)
      requires Valid()
      modifies this`updatedData
      ensures Valid()
      ensures updatedData == WithPenerima(old(updatedData), v)
    {
      updatedData := updatedData.(penerima := v);
    }

    /** The note textarea's `onChange`. */
    method SetKeterangan(v: string)
      requires Valid()
      modifies this`updatedData
      ensures Valid()
      ensures updatedData == WithKeterangan(old(updatedData), v)
    {
      updatedData := updatedData.(keterangan := v);
    }

    /**
     * `handleSubmit`: the PUT that is sent (if any), whose URL id is the id
     * in its body; `onClose` is called once whatever happens.
     */
    method HandleSubmit() returns (req: Option<PutRequest>)
      requires Valid()
      modifies this`closeCalls
      ensures req == SubmitRequest(editData, updatedData)
      ensures req.Some? ==> req.value.body.idbarang == req.value.id
      ensures closeCalls == old(closeCalls) + 1
    {
      req := None;
      if editData.idbarang != "" {
        req := Some(PutRequest(editData.idbarang, updatedData));
      }
      closeCalls := closeCalls + 1;
    }
  }
}
