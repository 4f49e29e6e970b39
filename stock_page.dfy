/**
 * The stock page (`/stock`): its login gate over the stored token, logout,
 * the loading and login checks at the top of the render, and the table it
 * exports to PDF.
 */
module StockPage {
  import opened Common

  /** An incoming-goods record as the stock page lists it. */
  datatype DataMasuk = DataMasuk(idbarang: string, idsupplier: string, nama_barang: string,
                                 jumlah: int, nama_supplier: string, keterangan: string)

  /**
   * What the page renders: the loading spinner, nothing (while replacing
   * the route with `/login`), or the stock layout.
   */
  datatype View = Spinner | RedirectToLogin | Layout

  /** The header of the exported table. */
  function StockHeader(): seq<Cell>
  {
    [Text("No."), Text("Nama Barang"), Text("Stock"), Text("Supplier"), Text("Keterangan")]
  }

  /** The exported row of the record at 0-based position `index`. */
  function StockRow(index: nat, item: DataMasuk): seq<Cell>
  {
    [Num(index + 1), Text(item.nama_barang), Num(item.jumlah), Text(item.nama_supplier), Text(item.keterangan)]
  }

  /** The page's React state, with the stored token and the routes pushed so far. */
  class StockPageState {
    var dataMasuk: seq<DataMasuk>
    var loggedIn: bool
    var isLoading: bool
    /** `localStorage.getItem('token')`: `None` stands for `null`. */
    var storedToken: Option<string>
    /** The routes handed to `router.push`, oldest first. */
    var navigations: seq<string>
    /** The mount effect (empty dependency list, so it runs once) has run. */
    ghost var mounted: bool
    /** The effect's one-second loading timer is armed and has not fired yet. */
    ghost var timerPending: bool

    /**
     * Once the mount effect has run, `loggedIn` reflects the token; the timer
     * is pending only between the effect and its firing, during which the
     * page is loading; the spinner goes away only once the timer has fired.
     */
    ghost predicate Valid()
      reads this
    {
      && (mounted ==> loggedIn == Truthy(storedToken))
      && (timerPending ==> mounted && isLoading)
      && (!isLoading ==> mounted && !timerPending)
    }

    /** The mount effect may run: it has not run yet. */
    ghost predicate CanMount()
      reads this
    {
      Valid() && !mounted
    }

    /** The loading timer may fire: it is armed and has not fired yet. */
    ghost predicate CanFireTimer()
      reads this
    {
      Valid() && timerPending
    }

    /** First render: `loggedIn` and `isLoading` both start true, whatever the token. */
    constructor (token: Option<string>)
      ensures Valid()
      ensures dataMasuk == [] && loggedIn && isLoading
      ensures storedToken == token && navigations == [] && !mounted && !timerPending
    {
      dataMasuk, loggedIn, isLoading := [], true, true;
      storedToken, navigations := token, [];
      mounted, timerPending := false, false;
    }

    /** `fetchAllMasuk` got an ok response with `data`. */
    method ReceiveMasuk(data: seq<DataMasuk>)
      modifies this`dataMasuk
      ensures dataMasuk == data
    {
      dataMasuk := data;
    }

    /**
     * The mount effect's login gate: a missing or empty token clears
     * `loggedIn` and pushes `/login`; any other token sets `loggedIn`. It
     * runs once, and arms the loading timer.
     */
    method MountEffect()
      requires CanMount()
      modifies this`loggedIn, this`navigations, this`mounted, this`timerPending
      ensures Valid() && mounted && timerPending
      ensures loggedIn <==> Truthy(storedToken)
      ensures navigations == old(navigations) + if Truthy(storedToken) then [] else ["/login"]
    {
      var token := storedToken;
      if !Truthy(token) {
        loggedIn := false;
        navigations := navigations + ["/login"];
      } else {
        loggedIn := true;
      }
      mounted, timerPending := true, true;
    }

    /** The loading timer armed by the mount effect fires, once. */
    method LoadingTimerElapsed()
      requires CanFireTimer()
      modifies this`isLoading, this`timerPending
      ensures Valid() && !isLoading && !timerPending
      ensures Render() == if Truthy(storedToken) then Layout else RedirectToLogin
    {
      isLoading, timerPending := false, false;
    }

    /**
     * `handleLogout`, from the layout's menu: the token is removed, the page
     * goes back to loading and logged out, and `/login` is pushed. The effect
     * has run and its timer has fired, so neither can run again, and
     * ReceiveMasuk does not touch the flags: no modelled step ends the
     * loading, and the spinner stays.
     */
    method HandleLogout()
      requires Valid() && Render() == Layout
      modifies this`storedToken, this`isLoading, this`loggedIn, this`navigations
      ensures Valid() && !CanMount() && !CanFireTimer()
      ensures storedToken == None && isLoading && !loggedIn
      ensures navigations == old(navigations) + ["/login"]
      ensures Render() == Spinner
    {
      storedToken := None;
      isLoading := true;
      loggedIn := false;
      navigations := navigations + ["/login"];
    }

    /**
     * The render guards: loading is checked before login, and the layout is
     * shown only to a page whose gate found a token.
     */
    function Render(): (v: View)
      reads this
      ensures v == Spinner <==> isLoading
      ensures v == RedirectToLogin <==> !isLoading && !loggedIn
      ensures Valid() && v == Layout ==> Truthy(storedToken)
    {
      if isLoading then Spinner
      else if !loggedIn then RedirectToLogin
      else Layout
    }

    /**
     * `handlePrintPDF`'s `tableData`: the header row, then one row per record
     * of `dataMasuk` numbered from 1, all of the header's width.
     */
    method HandlePrintPDF() returns (tableData: seq<seq<Cell>>)
      ensures |tableData| == |dataMasuk| + 1
      ensures tableData[0] == StockHeader()
      ensures forall i :: 0 <= i < |dataMasuk| ==> tableData[i + 1] == StockRow(i, dataMasuk[i])
      ensures forall r :: 0 <= r < |tableData| ==> |tableData[r]| == 5
    {
      tableData := [];
      var headers := StockHeader();
      tableData := tableData + [headers];
      var index := 0;
      while index < |dataMasuk|
        invariant 0 <= index <= |dataMasuk|
        invariant |tableData| == index + 1
        invariant tableData[0] == StockHeader()
        invariant forall i :: 0 <= i < index ==> tableData[i + 1] == StockRow(i, dataMasuk[i])
        invariant forall r :: 0 <= r < |tableData| ==> |tableData[r]| == 5
      {
        var item := dataMasuk[index];
        var rowData := StockRow(index, item);
        tableData := tableData + [rowData];
        index := index + 1;
      }
    }
  }
}
