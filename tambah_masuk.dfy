/**
 * The "add incoming goods" modal (ModalForm in tambahmasuk).
 *
 * The item-name field has a per-keystroke capital-letter guard; submitting
 * looks the selected supplier up first and then compares the quantity with
 * its confirmation as raw strings. Only when both pass is a POST body for
 * `/masuk` built.
 */
module TambahMasuk {
  import opened Common

  /** A supplier record as this modal loads it from `/supplier`. */
  datatype DataSupplier = DataSupplier(idsupplier: string, nama_supplier: string)

  /**
   * The JSON body POSTed to `/masuk`. Quantities travel as the strings the
   * number inputs produced; `tanggal` is absent (dropped by
   * `JSON.stringify`) while no date has been chosen.
   */
  datatype MasukBody = MasukBody(nama_barang: string, jumlah: string, konfir_jumlah: string,
                                 penerima: string, nama_supplier: string,
                                 tanggal: Option<string>, keterangan: string)

  /** The outcome of one submit: exactly one error, or the body that is sent. */
  datatype MasukSubmit = SupplierNotFound | QuantityMismatch | Ok(body: MasukBody)

  // ---------------------------------------------------------------------------
  // The capital-letter guard
  // ---------------------------------------------------------------------------

  predicate IsLowerAscii(c: char)
  {
    'a' <= c <= 'z'
  }

  /** `toUpperCase` of one character, for ASCII text. */
  function ToUpperAscii(c: char): (u: char)
    ensures IsLowerAscii(c) ==> 'A' <= u <= 'Z' && u as int == c as int - 32
    ensures !IsLowerAscii(c) ==> u == c
  {
    if IsLowerAscii(c) then (c as int - 32) as char else c
  }

  /** `value.charAt(0).toUpperCase() + value.slice(1)`. */
  function CapitalizeFirst(value: string): (r: string)
    ensures |r| == |value|
    ensures |value| > 0 ==> r[0] == ToUpperAscii(value[0]) && r[1..] == value[1..]
  {
    if |value| == 0 then "" else [ToUpperAscii(value[0])] + value[1..]
  }

  /** The guard of `handleNamaBarangChange`: the value equals its own capitalised form. */
  predicate CapitalGuard(value: string)
  {
    value == CapitalizeFirst(value)
  }

  /**
   * The guard rejects exactly the values that start with a lower-case
   * letter: the empty value and values starting with a capital, a digit or
   * any other non-letter pass.
   */
  lemma CapitalGuardIff(value: string)
    ensures CapitalGuard(value) <==> |value| == 0 || !IsLowerAscii(value[0])
  {
    if |value| > 0 && IsLowerAscii(value[0]) {
      assert CapitalizeFirst(value)[0] != value[0];
    }
  }

  /** Capitalising is idempotent, so whatever it produces passes the guard. */
  lemma {:induction false} CapitalizeIdempotent(value: string)
    ensures CapitalizeFirst(CapitalizeFirst(value)) == CapitalizeFirst(value)
    ensures CapitalGuard(CapitalizeFirst(value))
  {
    if |value| > 0 {
      var c := CapitalizeFirst(value);
      assert !IsLowerAscii(c[0]);
      CapitalGuardIff(c);
    }
  }

  lemma GuardExamples()
    ensures CapitalGuard("Rumah Batik")
    ensures !CapitalGuard("rumah batik")
    ensures CapitalGuard("")
    ensures CapitalGuard("5 kg")
  {
    CapitalGuardIff("Rumah Batik");
    CapitalGuardIff("rumah batik");
    CapitalGuardIff("5 kg");
  }

  // ---------------------------------------------------------------------------
  // Submission
  // ---------------------------------------------------------------------------

  /** `i` is the record `supplierData.find(item => item.idsupplier === id)` selects. */
  predicate FirstWithId(suppliers: seq<DataSupplier>, id: string, i: int)
  {
    0 <= i < |suppliers| && suppliers[i].idsupplier == id &&
    forall j :: 0 <= j < i ==> suppliers[j].idsupplier != id
  }

  /** `i` is the record `supplierData.find(item => item.nama_supplier === name)` selects. */
  predicate FirstWithName(suppliers: seq<DataSupplier>, name: string, i: int)
  {
    0 <= i < |suppliers| && suppliers[i].nama_supplier == name &&
    forall j :: 0 <= j < i ==> suppliers[j].nama_supplier != name
  }

  /**
   * The checks of `handleTambahBarang`: the supplier lookup first, then the
   * raw string comparison `jumlah !== konfirJumlah`.
   */
  function SubmitMasuk(suppliers: seq<DataSupplier>, idSupplier: string, namaBarang: string,
                       jumlah: string, konfirJumlah: string, penerima: string,
                       tanggal: Option<string>, keterangan: string): (r: MasukSubmit)
    ensures r.SupplierNotFound? <==>
      forall i :: 0 <= i < |suppliers| ==> suppliers[i].idsupplier != idSupplier
    ensures r.QuantityMismatch? <==>
      (exists i :: 0 <= i < |suppliers| && suppliers[i].idsupplier == idSupplier) && jumlah != konfirJumlah
    ensures r.Ok? ==> r.body.jumlah == r.body.konfir_jumlah
    ensures forall i :: FirstWithId(suppliers, idSupplier, i) && jumlah == konfirJumlah ==>
      r == Ok(MasukBody(namaBarang, jumlah, konfirJumlah, penerima,
                        suppliers[i].nama_supplier, tanggal, keterangan))
  {
    match FindFirst(suppliers, (item: DataSupplier) => item.idsupplier == idSupplier)
    case None => SupplierNotFound
    case Some(i) =>
      if jumlah != konfirJumlah then QuantityMismatch
      else Ok(MasukBody(namaBarang, jumlah, konfirJumlah, penerima,
                        suppliers[i].nama_supplier, tanggal, keterangan))
  }

  /** Quantities are compared as text: "5" and "05" do not match. */
  lemma RawStringComparison(namaBarang: string, penerima: string, tanggal: Option<string>, keterangan: string)
    ensures SubmitMasuk([DataSupplier("S1", "Batik Jaya")], "S1", namaBarang, "5", "05",
                        penerima, tanggal, keterangan) == QuantityMismatch
    ensures SubmitMasuk([DataSupplier("S1", "Batik Jaya")], "S1", namaBarang, "5", "5",
                        penerima, tanggal, keterangan).Ok?
    ensures SubmitMasuk([DataSupplier("S1", "Batik Jaya")], "S2", namaBarang, "5", "05",
                        penerima, tanggal, keterangan) == SupplierNotFound
  {
    assert "5" != "05" by { assert |"5"| != |"05"|; }
  }

  /**
   * `handleNamaSupplierChange`'s lookup: the id of the first supplier with
   * the chosen name, or the current id when there is none.
   */
  function SelectedSupplierId(suppliers: seq<DataSupplier>, value: string, current: string): (id: string)
    ensures (forall i :: 0 <= i < |suppliers| ==> suppliers[i].nama_supplier != value) ==> id == current
    ensures forall i :: FirstWithName(suppliers, value, i) ==> id == suppliers[i].idsupplier
  {
    match FindFirst(suppliers, (item: DataSupplier) => item.nama_supplier == value)
    case None => current
    case Some(i) => suppliers[i].idsupplier
  }

  /**
   * Choosing a supplier the list offers and then submitting never reports
   * "supplier not found", whatever ids the list carries.
   */
  lemma SelectedSupplierFound(suppliers: seq<DataSupplier>, value: string, current: string, k: nat,
                              namaBarang: string, jumlah: string, konfirJumlah: string, penerima: string,
                              tanggal: Option<string>, keterangan: string)
    requires FirstWithName(suppliers, value, k)
    ensures SubmitMasuk(suppliers, SelectedSupplierId(suppliers, value, current), namaBarang,
                        jumlah, konfirJumlah, penerima, tanggal, keterangan) != SupplierNotFound
  {
    assert suppliers[k].idsupplier == SelectedSupplierId(suppliers, value, current);
  }

  /** When ids are unique, an accepted submit after choosing a supplier carries that supplier's name. */
  lemma SelectThenSubmit(suppliers: seq<DataSupplier>, value: string, current: string, k: nat,
                         namaBarang: string, jumlah: string, konfirJumlah: string, penerima: string,
                         tanggal: Option<string>, keterangan: string)
    requires FirstWithName(suppliers, value, k)
    requires forall i, j :: 0 <= i < j < |suppliers| ==> suppliers[i].idsupplier != suppliers[j].idsupplier
    ensures SubmitMasuk(suppliers, SelectedSupplierId(suppliers, value, current), namaBarang,
                        jumlah, konfirJumlah, penerima, tanggal, keterangan).Ok? ==>
      SubmitMasuk(suppliers, SelectedSupplierId(suppliers, value, current), namaBarang,
                  jumlah, konfirJumlah, penerima, tanggal, keterangan).body.nama_supplier == value
  {
    var id := SelectedSupplierId(suppliers, value, current);
    assert id == suppliers[k].idsupplier;
    assert FirstWithId(suppliers, id, k) by {
      forall j | 0 <= j < k ensures suppliers[j].idsupplier != id {
        assert suppliers[j].idsupplier != suppliers[k].idsupplier;
      }
    }
  }

  /** The modal's React state. */
  class TambahMasukForm {
    var namaBarang: string
    var keterangan: string
    var jumlah: string
    var konfirJumlah: string
    var penerima: string
    var tanggal: Option<string>
    var namaSupplier: string
    var supplierData: seq<DataSupplier>
    var idSupplier: string

    constructor ()
      ensures namaBarang == "" && keterangan == "" && jumlah == "" && konfirJumlah == ""
      ensures penerima == "" && tanggal == None
      ensures namaSupplier == "" && supplierData == [] && idSupplier == ""
    {
      namaBarang, keterangan, jumlah, konfirJumlah := "", "", "", "";
      penerima, tanggal := "", None;
      namaSupplier, supplierData, idSupplier := "", [], "";
    }

    /** The mount effect's fetch of `/supplier` succeeded with `data`. */
    method ReceiveSuppliers(data: seq<DataSupplier>)
      modifies this`supplierData
      ensures supplierData == data
    {
      supplierData := data;
    }

    /** The quantity field's `onChange`: the raw text is kept. */
    method SetJumlah(v: string)
      modifies this`jumlah
      ensures jumlah == v
    {
      jumlah := v;
    }

    /** The confirmation field's `onChange`: the raw text is kept. */
    method SetKonfirJumlah(v: string)
      modifies this`konfirJumlah
      ensures konfirJumlah == v
    {
      konfirJumlah := v;
    }

    /** The recipient field's `onChange`: no guard. */
    method SetPenerima(v: string)
      modifies this`penerima
      ensures penerima == v
    {
      penerima := v;
    }

    /** The note field's `onChange`: no guard. */
    method SetKeterangan(v: string)
      modifies this`keterangan
      ensures keterangan == v
    {
      keterangan := v;
    }

    /**
     * `handleNamaBarangChange`: a keystroke that passes the capital guard is
     * taken; one that does not raises the alert and leaves the name as it was.
     */
    method HandleNamaBarangChange(input: string) returns (alerted: bool)
      modifies this`namaBarang
      ensures alerted <==> !CapitalGuard(input)
      ensures namaBarang == if alerted then old(namaBarang) else input
      ensures CapitalGuard(old(namaBarang)) ==> CapitalGuard(namaBarang)
    {
      var firstLetterUppercase := CapitalizeFirst(input);
      if input == firstLetterUppercase {
        namaBarang := input;
        alerted := false;
      } else {
        alerted := true;
      }
    }

    /**
     * `handleNamaSupplierChange`: the name is always taken; the id changes
     * only when a supplier with that name exists.
     */
    method HandleNamaSupplierChange(value: string)
      modifies this`namaSupplier, this`idSupplier
      ensures namaSupplier == value
      ensures idSupplier == SelectedSupplierId(supplierData, value, old(idSupplier))
    {
      namaSupplier := value;
      var found := FindFirst(supplierData, (item: DataSupplier) => item.nama_supplier == value);
      if found.Some? {
        idSupplier := supplierData[found.value].idsupplier;
      }
    }

    /**
     * `handleTambahBarang` up to the request, step by step with the
     * handler's early returns; SubmitMasuk is the same decision as one
     * expression, which the lemmas above reason about.
     */
    method HandleTambahBarang() returns (r: MasukSubmit)
      ensures r == SubmitMasuk(supplierData, idSupplier, namaBarang, jumlah, konfirJumlah,
                               penerima, tanggal, keterangan)
    {
      var id := idSupplier;
      var found := FindFirst(supplierData, (item: DataSupplier) => item.idsupplier == id);
      if found.None? {
        return SupplierNotFound;
      }
      if jumlah != konfirJumlah {
        return QuantityMismatch;
      }
      r := Ok(MasukBody(namaBarang, jumlah, konfirJumlah, penerima,
                        supplierData[found.value].nama_supplier, tanggal, keterangan));
    }
  }
}
