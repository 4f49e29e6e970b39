/**
 * The "add outgoing goods" modal (TambahKeluarModal).
 *
 * Submitting runs an ordered chain of early-return checks against the list
 * of incoming-goods records the modal loaded: the selected item must exist,
 * the quantity must be positive, and it must not exceed the item's stock.
 * Only when all three pass is a POST body for `/keluar` built.
 */
module TambahKeluar {
  import opened Common

  /** An incoming-goods record as this modal loads it from `/masuk`. */
  datatype DataMasuk = DataMasuk(jumlah: int, idbarang: string, nama_barang: string)

  /**
   * The `jumlah` state: `''` until the number field is first edited, then
   * the `Number(...)` of its text (an emptied field gives 0).
   */
  datatype NumberField = Blank | Entered(n: int)

  /** The JSON body POSTed to `/keluar`. */
  datatype KeluarBody = KeluarBody(nama_barang: string, jumlah: int, penerima: string, tanggal: string)

  /** The outcome of one submit: exactly one error, or the body that is sent. */
  datatype KeluarSubmit = NotFound | Invalid | Insufficient | Ok(body: KeluarBody)

  /** `Number(jumlah)`: the empty string converts to 0. */
  function ToNumber(f: NumberField): (v: int)
    ensures f.Blank? ==> v == 0
    ensures f.Entered? ==> v == f.n
  {
    match f
    case Blank => 0
    case Entered(n) => n
  }

  /** `i` is the record `masuk.find(item => item.idbarang === id)` selects. */
  predicate FirstWithId(masuk: seq<DataMasuk>, id: string, i: int)
  {
    0 <= i < |masuk| && masuk[i].idbarang == id &&
    forall j :: 0 <= j < i ==> masuk[j].idbarang != id
  }

  /** `i` is the record `masuk.find(item => item.nama_barang === name)` selects. */
  predicate FirstWithName(masuk: seq<DataMasuk>, name: string, i: int)
  {
    0 <= i < |masuk| && masuk[i].nama_barang == name &&
    forall j :: 0 <= j < i ==> masuk[j].nama_barang != name
  }

  /**
   * The validation chain of `handleTambahBarang`: not found, then invalid
   * quantity, then insufficient stock; `now` stands for the Jakarta-time
   * timestamp taken just before the request.
   */
  function SubmitKeluar(masuk: seq<DataMasuk>, idBarang: string, jumlah: NumberField,
                        penerima: string, now: string): (r: KeluarSubmit)
    ensures r.NotFound? <==> forall i :: 0 <= i < |masuk| ==> masuk[i].idbarang != idBarang
    ensures r.Invalid? <==>
      (exists i :: 0 <= i < |masuk| && masuk[i].idbarang == idBarang) && ToNumber(jumlah) <= 0
    ensures forall i :: FirstWithId(masuk, idBarang, i) ==>
      && (r.Insufficient? <==> 0 < ToNumber(jumlah) && masuk[i].jumlah < ToNumber(jumlah))
      && (r.Ok? <==> 0 < ToNumber(jumlah) <= masuk[i].jumlah)
      && (r.Ok? ==> r.body == KeluarBody(masuk[i].nama_barang, ToNumber(jumlah), penerima, now))
  {
    match FindFirst(masuk, (item: DataMasuk) => item.idbarang == idBarang)
    case None => NotFound
    case Some(i) =>
      var q := ToNumber(jumlah);
      if q <= 0 then Invalid
      else if q > masuk[i].jumlah then Insufficient
      else Ok(KeluarBody(masuk[i].nama_barang, q, penerima, now))
  }

  /**
   * `handleNamaBarangChange`'s lookup: the id of the first record with the
   * chosen name, or the current id when no record has that name.
   */
  function SelectedId(masuk: seq<DataMasuk>, value: string, current: string): (id: string)
    ensures (forall i :: 0 <= i < |masuk| ==> masuk[i].nama_barang != value) ==> id == current
    ensures forall i :: FirstWithName(masuk, value, i) ==> id == masuk[i].idbarang
  {
    match FindFirst(masuk, (item: DataMasuk) => item.nama_barang == value)
    case None => current
    case Some(i) => masuk[i].idbarang
  }

  /** The stock boundary: the whole stock may be issued, one more may not. */
  lemma StockBoundary(masuk: seq<DataMasuk>, i: nat, penerima: string, now: string)
    requires i < |masuk|
    requires FirstWithId(masuk, masuk[i].idbarang, i) && masuk[i].jumlah > 0
    ensures SubmitKeluar(masuk, masuk[i].idbarang, Entered(masuk[i].jumlah), penerima, now).Ok?
    ensures SubmitKeluar(masuk, masuk[i].idbarang, Entered(masuk[i].jumlah + 1), penerima, now) == Insufficient
    ensures SubmitKeluar(masuk, masuk[i].idbarang, Entered(0), penerima, now) == Invalid
    ensures SubmitKeluar(masuk, masuk[i].idbarang, Blank, penerima, now) == Invalid
  {
  }

  /** The item `{idbarang: "B1", nama_barang: "Kebaya", jumlah: 60}`: 60 is issued, 61 is refused. */
  lemma KebayaScenario(penerima: string, now: string)
    ensures SubmitKeluar([DataMasuk(60, "B1", "Kebaya")], "B1", Entered(60), penerima, now)
         == Ok(KeluarBody("Kebaya", 60, penerima, now))
    ensures SubmitKeluar([DataMasuk(60, "B1", "Kebaya")], "B1", Entered(61), penerima, now) == Insufficient
    ensures SubmitKeluar([DataMasuk(60, "B1", "Kebaya")], "B2", Entered(1), penerima, now) == NotFound
  {
    assert FirstWithId([DataMasuk(60, "B1", "Kebaya")], "B1", 0);
  }

  /**
   * Selecting a name the list offers and then submitting never reports
   * "not found", whatever ids the list carries.
   */
  lemma SelectedIdFound(masuk: seq<DataMasuk>, value: string, current: string, k: nat,
                        jumlah: NumberField, penerima: string, now: string)
    requires FirstWithName(masuk, value, k)
    ensures SubmitKeluar(masuk, SelectedId(masuk, value, current), jumlah, penerima, now) != NotFound
  {
    assert masuk[k].idbarang == SelectedId(masuk, value, current);
  }

  /** When ids are unique, an accepted submit after selecting a name carries that name. */
  lemma SelectThenSubmit(masuk: seq<DataMasuk>, value: string, current: string, k: nat,
                         jumlah: NumberField, penerima: string, now: string)
    requires FirstWithName(masuk, value, k)
    requires forall i, j :: 0 <= i < j < |masuk| ==> masuk[i].idbarang != masuk[j].idbarang
    ensures SubmitKeluar(masuk, SelectedId(masuk, value, current), jumlah, penerima, now).Ok? ==>
      SubmitKeluar(masuk, SelectedId(masuk, value, current), jumlah, penerima, now).body.nama_barang == value
  {
    var id := SelectedId(masuk, value, current);
    assert id == masuk[k].idbarang;
    assert FirstWithId(masuk, id, k) by {
      forall j | 0 <= j < k ensures masuk[j].idbarang != id {
        assert masuk[j].idbarang != masuk[k].idbarang;
      }
    }
  }

  /** The modal's React state. */
  class TambahKeluarForm {
    var namaBarang: string
    var jumlah: NumberField
    var penerima: string
    var masuk: seq<DataMasuk>
    var idBarang: string

    constructor ()
      ensures namaBarang == "" && jumlah == Blank && penerima == ""
      ensures masuk == [] && idBarang == ""
    {
      namaBarang, jumlah, penerima := "", Blank, "";
      masuk, idBarang := [], "";
    }

    /** The mount effect's fetch of `/masuk` succeeded with `data`. */
    method ReceiveMasuk(data: seq<DataMasuk>)
      modifies this`masuk
      ensures masuk == data
    {
      masuk := data;
    }

    /** The quantity field's `onChange`: `setJumlah(Number(e.target.value))`. */
    method SetJumlah(n: int)
      modifies this`jumlah
      ensures jumlah == Entered(n)
    {
      jumlah := Entered(n);
    }

    /** The recipient field's `onChange`. */
    method SetPenerima(v: string)
      modifies this`penerima
      ensures penerima == v
    {
      penerima := v;
    }

    /**
     * `handleNamaBarangChange`: the name is always taken; the id becomes that
     * of the first record with this name and stays put when there is none.
     */
    method HandleNamaBarangChange(value: string)
      modifies this`namaBarang, this`idBarang
      ensures namaBarang == value
      ensures idBarang == SelectedId(masuk, value, old(idBarang))
    {
      namaBarang := value;
      var found := FindFirst(masuk, (item: DataMasuk) => item.nama_barang == value);
      if found.Some? {
        idBarang := masuk[found.value].idbarang;
      }
    }

    /**
     * `handleTambahBarang` up to the request, step by step with the
     * handler's early returns; SubmitKeluar is the same decision as one
     * expression, which the lemmas above reason about.
     */
    method HandleTambahBarang(now: string) returns (r: KeluarSubmit)
      ensures r == SubmitKeluar(masuk, idBarang, jumlah, penerima, now)
    {
      var id := idBarang;
      var found := FindFirst(masuk, (item: DataMasuk) => item.idbarang == id);
      if found.None? {
        return NotFound;
      }
      var selected := masuk[found.value];
      var q := ToNumber(jumlah);
      if q <= 0 {
        return Invalid;
      }
      if q > selected.jumlah {
        return Insufficient;
      }
      r := Ok(KeluarBody(selected.nama_barang, q, penerima, now));
    }
  }
}
