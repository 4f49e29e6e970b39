/**
 * The outgoing-goods page (`/keluar`): the list of outgoing records it
 * holds, deleting one record by id, and the table it exports to PDF.
 */
module KeluarPage {
  import opened Common

  /** An outgoing-goods record. */
  datatype DataKeluar = DataKeluar(idkeluar: string, idbarang: string, tanggal: string,
                                   nama_barang: string, jumlah: int, penerima: string)

  /** How the DELETE request ended: an ok response, a non-ok response, or a thrown error. */
  datatype DeleteOutcome = ResponseOk | ResponseNotOk | RequestFailed

  /**
   * A DELETE in flight: the id it was sent for and the list the handler
   * closed over when it was called, which is what an ok response filters.
   */
  datatype PendingDelete = PendingDelete(id: string, captured: seq<DataKeluar>)

  /** `data.filter(d => d.idkeluar !== id)`. */
  function RemoveById(data: seq<DataKeluar>, id: string): (r: seq<DataKeluar>)
    ensures |r| <= |data|
    ensures forall k :: 0 <= k < |r| ==> r[k].idkeluar != id && r[k] in data
    ensures forall k :: 0 <= k < |data| && data[k].idkeluar != id ==> data[k] in r
  {
    if |data| == 0 then []
    else if data[0].idkeluar != id then [data[0]] + RemoveById(data[1..], id)
    else RemoveById(data[1..], id)
  }

  /**
   * Deleting distributes over concatenation, so the surviving records keep
   * their original relative order.
   */
  lemma {:induction false} RemoveByIdAppend(a: seq<DataKeluar>, b: seq<DataKeluar>, id: string)
    ensures RemoveById(a + b, id) == RemoveById(a, id) + RemoveById(b, id)
  {
    if |a| == 0 {
      assert a + b == b;
    } else {
      assert (a + b)[1..] == a[1..] + b;
      RemoveByIdAppend(a[1..], b, id);
    }
  }

  /** A delete of an id no record carries leaves the list exactly as it was. */
  lemma {:induction false} RemoveByIdAbsent(data: seq<DataKeluar>, id: string)
    requires forall k :: 0 <= k < |data| ==> data[k].idkeluar != id
    ensures RemoveById(data, id) == data
  {
    if |data| > 0 {
      RemoveByIdAbsent(data[1..], id);
      assert [data[0]] + data[1..] == data;
    }
  }

  /** Deleting the same id twice is the same as deleting it once. */
  lemma RemoveByIdIdempotent(data: seq<DataKeluar>, id: string)
    ensures RemoveById(RemoveById(data, id), id) == RemoveById(data, id)
  {
    RemoveByIdAbsent(RemoveById(data, id), id);
  }

  /**
   * Every record whose id differs survives as often as it occurred, and no
   * copy of a record carrying the id is left.
   */
  lemma {:induction false} RemoveByIdMultiplicity(data: seq<DataKeluar>, id: string, x: DataKeluar)
    ensures multiset(RemoveById(data, id))[x] == if x.idkeluar == id then 0 else multiset(data)[x]
  {
    if |data| > 0 {
      RemoveByIdMultiplicity(data[1..], id, x);
      assert data == [data[0]] + data[1..];
      assert multiset(data) == multiset([data[0]]) + multiset(data[1..]);
    }
  }

  /**
   * Two deletes sent from the same render each filter the list they
   * captured, so when both succeed the later response decides the list: it
   * still holds the other record, whereas deleting one after the other would
   * leave nothing.
   */
  lemma OverlappingDeletes(a: DataKeluar, b: DataKeluar)
    requires a.idkeluar == "1" && b.idkeluar == "2"
    ensures RemoveById([a, b], "1") == [b]
    ensures RemoveById([a, b], "2") == [a]
    ensures RemoveById(RemoveById([a, b], "1"), "2") == []
  {
    assert [a, b][1..] == [b];
    assert [b][1..] == [];
  }

  /** The header of the exported table. */
  function KeluarHeader(): seq<Cell>
  {
    [Text("No."), Text("Nama Barang"), Text("Tanggal"), Text("Jumlah"), Text("Penerima")]
  }

  /** The exported row of the record at 0-based position `index`. */
  function KeluarRow(index: nat, item: DataKeluar): seq<Cell>
  {
    [Num(index + 1), Text(item.nama_barang), Text(item.tanggal), Num(item.jumlah), Text(item.penerima)]
  }

  /** The page's React state that the modelled handlers touch. */
  class KeluarPageState {
    var dataKeluar: seq<DataKeluar>

    /** The page starts with an empty list; this page never fetches it. */
    constructor ()
      ensures dataKeluar == []
    {
      dataKeluar := [];
    }

    /**
     * `handleDelete` up to its `await`: with a missing or empty id nothing is
     * sent; otherwise the DELETE for that id is sent, carrying the list as it
     * stands now.
     */
    method HandleDelete(idkeluar: Option<string>) returns (sent: Option<PendingDelete>)
      ensures sent.Some? <==> Truthy(idkeluar)
      ensures sent.Some? ==> sent.value == PendingDelete(idkeluar.value, dataKeluar)
    {
      sent := None;
      if Truthy(idkeluar) {
        sent := Some(PendingDelete(idkeluar.value, dataKeluar));
      }
    }

    /**
     * The awaited response of a DELETE arrives: an ok response sets the list
     * to the captured list without the id's records, overwriting whatever
     * happened to the list in between; any other outcome leaves it alone.
     */
    method DeleteResponded(pending: PendingDelete, outcome: DeleteOutcome)
      modifies this`dataKeluar
      ensures dataKeluar == if outcome == ResponseOk
                            then RemoveById(pending.captured, pending.id)
                            else old(dataKeluar)
    {
      if outcome == ResponseOk {
        dataKeluar := RemoveById(pending.captured, pending.id);
      }
    }

    /**
     * `handlePrintPDF`'s `tableData`: the header row, then one row per record
     * numbered from 1, all of the header's width.
     */
    method HandlePrintPDF() returns (tableData: seq<seq<Cell>>)
      ensures |tableData| == |dataKeluar| + 1
      ensures tableData[0] == KeluarHeader()
      ensures forall i :: 0 <= i < |dataKeluar| ==> tableData[i + 1] == KeluarRow(i, dataKeluar[i])
      ensures forall r :: 0 <= r < |tableData| ==> |tableData[r]| == 5
    {
      tableData := [];
      var headers := KeluarHeader();
      tableData := tableData + [headers];
      var index := 0;
      while index < |dataKeluar|
        invariant 0 <= index <= |dataKeluar|
        invariant |tableData| == index + 1
        invariant tableData[0] == KeluarHeader()
        invariant forall i :: 0 <= i < index ==> tableData[i + 1] == KeluarRow(i, dataKeluar[i])
        invariant forall r :: 0 <= r < |tableData| ==> |tableData[r]| == 5
      {
        var item := dataKeluar[index];
        var rowData := KeluarRow(index, item);
        tableData := tableData + [rowData];
        index := index + 1;
      }
    }
  }
}
