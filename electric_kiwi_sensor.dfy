/** The Electric Kiwi account sensors: four sensor descriptions, each with a
    projection of the account record; sensors that read one shared data holder
    whose balance a successful fetch replaces and a failed fetch keeps. */
module ElectricKiwiSensor {
  import opened Wrappers
  import BillingDate
  import ElectricKiwi

  const NAME: string := "Electric Kiwi"
  const ATTRIBUTION: string := "Data provided by the Juice Hacker API"
  const ATTR_ATTRIBUTION: string := "attribution"

  datatype Connection = Connection(hopPercentage: string)

  /** The vendor's account record. Before the first successful fetch only the
      two balances are set; the billing date and the connections are not. */
  datatype AccountBalance = AccountBalance(
    totalRunningBalance: string,
    totalAccountBalance: string,
    nextBillingDate: Option<string>,
    connections: Option<seq<Connection>>)

  /** The record the data holder starts with: both balances "0". */
  const INITIAL_BALANCE: AccountBalance := AccountBalance("0", "0", None, None)

  /** A record with every field the projections read. */
  predicate Populated(b: AccountBalance) {
    b.nextBillingDate.Some? && b.connections.Some?
  }

  /** The description keys. Their text is not part of this model; these four
      stand-ins only need to be different from one another. */
  datatype SensorKey = TotalRunningBalanceKey | TotalCurrentBalanceKey | NextBillingDateKey | HopPercentageKey

  function KeyText(k: SensorKey): string {
    match k
    case TotalRunningBalanceKey => "total_running_balance"
    case TotalCurrentBalanceKey => "total_current_balance"
    case NextBillingDateKey => "next_billing_date"
    case HopPercentageKey => "hop_percentage"
  }

  datatype DeviceClass = Monetary | Date
  datatype StateClass = Total | Measurement
  datatype Unit = CurrencyDollar | Percentage

  /** The description's `value_func`: which part of the record the sensor shows. */
  datatype ValueFunc = RunningBalanceOf | AccountBalanceOf | BillingDateOf | HopPercentageOfFirstConnection

  datatype SensorDescription = SensorDescription(
    key: SensorKey,
    name: string,
    icon: string,
    deviceClass: Option<DeviceClass>,
    stateClass: Option<StateClass>,
    unit: Option<Unit>,
    valueFunc: ValueFunc)

  const SENSOR_TYPES: seq<SensorDescription> := [
    SensorDescription(TotalRunningBalanceKey, NAME + " total running balance", "mdi:currency-usd",
                      Some(Monetary), Some(Total), Some(CurrencyDollar), RunningBalanceOf),
    SensorDescription(TotalCurrentBalanceKey, NAME + " total current balance", "mdi:currency-usd",
                      Some(Monetary), Some(Total), Some(CurrencyDollar), AccountBalanceOf),
    SensorDescription(NextBillingDateKey, NAME + " next billing date", "mdi:calendar",
                      Some(Date), None, None, BillingDateOf),
    SensorDescription(HopPercentageKey, NAME + " Hour of Power savings", "",
                      None, Some(Measurement), Some(Percentage), HopPercentageOfFirstConnection)
  ]

  /** A sensor's state: text, or the instant of a date-typed sensor. */
  datatype NativeValue = Text(text: string) | Timestamp(at: BillingDate.DateTime)

  /** The record has the attribute the projection reads: the billing date, or a
      first connection. */
  predicate Readable(f: ValueFunc, b: AccountBalance) {
    match f
    case BillingDateOf => b.nextBillingDate.Some?
    case HopPercentageOfFirstConnection => b.connections.Some? && |b.connections.value| > 0
    case _ => true
  }

  /** Applying a `value_func` to the record; the billing date goes through strptime. */
  function Apply(f: ValueFunc, b: AccountBalance): (r: Result<NativeValue, BillingDate.ValueError>)
    requires Readable(f, b)
    ensures f != BillingDateOf ==> r.Success? && r.value.Text?
    ensures f == BillingDateOf ==>
              match BillingDate.Strptime(b.nextBillingDate.value)
              case Success(at) => r == Success(Timestamp(at))
              case Failure(e) => r == Failure(e)
  {
    match f
    case RunningBalanceOf => Success(Text(b.totalRunningBalance))
    case AccountBalanceOf => Success(Text(b.totalAccountBalance))
    case BillingDateOf =>
      (match BillingDate.Strptime(b.nextBillingDate.value)
       case Success(at) => Success(Timestamp(at))
       case Failure(e) => Failure(e))
    case HopPercentageOfFirstConnection => Success(Text(b.connections.value[0].hopPercentage))
  }

  predicate StartsWith(s: string, prefix: string) {
    |prefix| <= |s| && s[..|prefix|] == prefix
  }

  /** The description table: four sensors with different keys, every name
      starting with "Electric Kiwi"; each key's sensor shows the record field of
      that name, and the billing-date sensor shows a midnight or an error. */
  lemma SensorTypesTable(b: AccountBalance)
    ensures |SENSOR_TYPES| == 4
    ensures forall i, j :: 0 <= i < j < 4 ==> SENSOR_TYPES[i].key != SENSOR_TYPES[j].key
    ensures forall i :: 0 <= i < 4 ==> StartsWith(SENSOR_TYPES[i].name, NAME)
    ensures forall i :: 0 <= i < 4 && SENSOR_TYPES[i].key == TotalRunningBalanceKey ==>
              Apply(SENSOR_TYPES[i].valueFunc, b) == Success(Text(b.totalRunningBalance))
    ensures forall i :: 0 <= i < 4 && SENSOR_TYPES[i].key == TotalCurrentBalanceKey ==>
              Apply(SENSOR_TYPES[i].valueFunc, b) == Success(Text(b.totalAccountBalance))
    ensures forall i :: 0 <= i < 4 && SENSOR_TYPES[i].key == HopPercentageKey && Readable(SENSOR_TYPES[i].valueFunc, b) ==>
              Apply(SENSOR_TYPES[i].valueFunc, b) == Success(Text(b.connections.value[0].hopPercentage))
    ensures forall i :: 0 <= i < 4 && SENSOR_TYPES[i].key == NextBillingDateKey && Readable(SENSOR_TYPES[i].valueFunc, b) ==>
              match Apply(SENSOR_TYPES[i].valueFunc, b)
              case Success(v) => v.Timestamp? && v.at.hour == 0 && v.at.minute == 0 && v.at.second == 0
              case Failure(_) => BillingDate.Strptime(b.nextBillingDate.value).Failure?
  {
    forall i | 0 <= i < 4 ensures StartsWith(SENSOR_TYPES[i].name, NAME) {
      var suffixes := [" total running balance", " total current balance", " next billing date", " Hour of Power savings"];
      assert SENSOR_TYPES[i].name == NAME + suffixes[i];
      assert (NAME + suffixes[i])[..|NAME|] == NAME;
    }
  }

  /** Before any fetch every always-readable sensor shows "0", and the billing
      date and HOP sensors have nothing to read. */
  lemma InitialBalanceReadsZero()
    ensures Apply(RunningBalanceOf, INITIAL_BALANCE) == Success(Text("0"))
    ensures Apply(AccountBalanceOf, INITIAL_BALANCE) == Success(Text("0"))
    ensures !Readable(BillingDateOf, INITIAL_BALANCE) && !Readable(HopPercentageOfFirstConnection, INITIAL_BALANCE)
  {
  }

  /** `unique_id`: "<customer number>_<connection id>_<key>". */
  function UniqueIdFor(customerNumber: string, connectionId: string, key: SensorKey): (id: string)
    ensures StartsWith(id, customerNumber + "_" + connectionId + "_")
    ensures |id| == |customerNumber| + |connectionId| + 2 + |KeyText(key)|
    ensures id[|id| - |KeyText(key)|..] == KeyText(key)
  {
    var prefix := customerNumber + "_" + connectionId + "_";
    var id := prefix + KeyText(key);
    assert id[..|prefix|] == prefix;
    assert id[|prefix|..] == KeyText(key);
    id
  }

  /** Within one account, sensors with different keys get different ids. */
  lemma UniqueIdsDifferByKey(customerNumber: string, connectionId: string, k1: SensorKey, k2: SensorKey)
    requires k1 != k2
    ensures UniqueIdFor(customerNumber, connectionId, k1) != UniqueIdFor(customerNumber, connectionId, k2)
  {
    var prefix := customerNumber + "_" + connectionId + "_";
    var id1, id2 := UniqueIdFor(customerNumber, connectionId, k1), UniqueIdFor(customerNumber, connectionId, k2);
    assert KeyText(k1) != KeyText(k2) by {
      match k1
      case TotalRunningBalanceKey =>
      case TotalCurrentBalanceKey =>
      case NextBillingDateKey =>
      case HopPercentageKey =>
    }
    assert |id1| != |id2| || id1[|prefix|..] != id2[|prefix|..];
  }

  /** How one fetch of the account balance ended. */
  datatype FetchResult =
    | Fetched(balance: AccountBalance)
    | ApiError(message: string)      // the vendor's ApiException
    | TimedOut                       // the 60-second timeout expired
    | OtherFailure                   // any other exception from the client

  /** What `async_update` lets escape: ApiException is caught and logged, a
      timeout leaves as TimeoutError, anything else as itself. */
  datatype UpdateError = TimeoutError | Uncaught

  /** The balance after one update. */
  function NextBalance(b: AccountBalance, f: FetchResult): (next: AccountBalance)
    ensures f.Fetched? ==> next == f.balance
    ensures !f.Fetched? ==> next == b
  {
    if f.Fetched? then f.balance else b
  }

  function RaisedBy(f: FetchResult): (e: Option<UpdateError>)
    ensures e.None? <==> f.Fetched? || f.ApiError?
  {
    match f
    case Fetched(_) => None
    case ApiError(_) => None
    case TimedOut => Some(TimeoutError)
    case OtherFailure => Some(Uncaught)
  }

  /** The balance after a series of updates, applied in order. */
  function BalanceAfter(b: AccountBalance, fs: seq<FetchResult>): AccountBalance
    decreases |fs|
  {
    if fs == [] then b else NextBalance(BalanceAfter(b, fs[..|fs| - 1]), fs[|fs| - 1])
  }

  /** Retain the last good value, in three parts. With no successful fetch the
      balance is the starting one. */
  lemma {:induction false} NoFetchKeepsBalance(b: AccountBalance, fs: seq<FetchResult>)
    requires forall i :: 0 <= i < |fs| ==> !fs[i].Fetched?
    ensures BalanceAfter(b, fs) == b
  {
    if fs != [] {
      var init := fs[..|fs| - 1];
      assert forall i :: 0 <= i < |init| ==> init[i] == fs[i];
      NoFetchKeepsBalance(b, init);
    }
  }

  /** The balance is the one the last successful fetch returned. */
  lemma {:induction false} LastFetchWins(b: AccountBalance, fs: seq<FetchResult>, i: int)
    requires 0 <= i < |fs| && fs[i].Fetched?
    requires forall j :: i < j < |fs| ==> !fs[j].Fetched?
    ensures BalanceAfter(b, fs) == fs[i].balance
  {
    if i < |fs| - 1 {
      var init := fs[..|fs| - 1];
      assert init[i] == fs[i];
      assert forall j :: i < j < |init| ==> init[j] == fs[j];
      LastFetchWins(b, init, i);
    }
  }

  /** A populated balance stays populated while every fetched record is. */
  lemma {:induction false} PopulatedStaysPopulated(b: AccountBalance, fs: seq<FetchResult>)
    requires Populated(b)
    requires forall i :: 0 <= i < |fs| && fs[i].Fetched? ==> Populated(fs[i].balance)
    ensures Populated(BalanceAfter(b, fs))
  {
    if fs != [] {
      var init := fs[..|fs| - 1];
      assert forall i :: 0 <= i < |init| ==> init[i] == fs[i];
      PopulatedStaysPopulated(b, init);
    }
  }

  /** `ElectricKiwiAccountData`: the data holder all sensors of an entry share. */
  class AccountData {
    const customerNumber: string
    const connectionId: string
    var balance: AccountBalance

    constructor (api: ElectricKiwi.ApiClient)
      ensures customerNumber == api.customerNumber && connectionId == api.connectionId
      ensures balance == INITIAL_BALANCE
    {
      customerNumber := api.customerNumber;
      connectionId := api.connectionId;
      balance := INITIAL_BALANCE;
    }

    /** `async_update`: a fetched record replaces the balance wholesale; on any
        failure the balance is kept, and only an ApiException is swallowed. */
    method AsyncUpdate(fetch: FetchResult) returns (raised: Option<UpdateError>)
      modifies this
      ensures balance == NextBalance(old(balance), fetch)
      ensures raised == RaisedBy(fetch)
      ensures fetch.ApiError? ==> balance == old(balance) && raised.None?
    {
      match fetch {
        case Fetched(b) =>
          balance := b;
          raised := None;
        case ApiError(_) =>
          raised := None;
        case TimedOut =>
          raised := Some(TimeoutError);
        case OtherFailure =>
          raised := Some(Uncaught);
      }
    }
  }

  /** `ElectricKiwiAccountSensor`: one description read against the shared holder. */
  class AccountSensor {
    const data: AccountData
    const description: SensorDescription
    const attributes: map<string, string> := map[ATTR_ATTRIBUTION := ATTRIBUTION]

    constructor (data: AccountData, description: SensorDescription)
      ensures this.data == data && this.description == description
    {
      this.data := data;
      this.description := description;
    }

    /** The account's ids and this sensor's key. */
    function UniqueId(): (id: string)
      ensures id == UniqueIdFor(data.customerNumber, data.connectionId, description.key)
    {
      data.customerNumber + "_" + data.connectionId + "_" + KeyText(description.key)
    }

    function Name(): (name: string)
      ensures name == description.name
    {
      description.name
    }

    /** The projection applied to the shared holder's current balance. */
    function NativeValue(): (v: Result<NativeValue, BillingDate.ValueError>)
      reads data
      requires Readable(description.valueFunc, data.balance)
      ensures v == Apply(description.valueFunc, data.balance)
    {
      Apply(description.valueFunc, data.balance)
    }

    /** The same single attribution whatever the balance. */
    function ExtraStateAttributes(): (attrs: map<string, string>)
      ensures attrs.Keys == {ATTR_ATTRIBUTION} && attrs[ATTR_ATTRIBUTION] == ATTRIBUTION
    {
      attributes
    }
  }

  /** Why the sensor platform's setup raised. */
  datatype PlatformSetupError = AttributeError | UpdateFailed(error: UpdateError)

  /** Reading the account's ids from what entry setup stored: an empty dict has
      no `customer_number` attribute. */
  function AccountSource(v: ElectricKiwi.RegistryValue): (r: Result<ElectricKiwi.ApiClient, PlatformSetupError>)
    ensures r.Success? <==> v.Client?
    ensures r.Failure? ==> r.error == AttributeError
  {
    match v
    case EmptyDict => Failure(AttributeError)
    case Client(api) => Success(api)
  }

  /** The discrepancy between the two files: after entry setup as written, the
      sensor platform cannot read the account; after the corrected setup it reads
      the client that was stored. */
  lemma AsWrittenRegistryBreaksSensors(data: ElectricKiwi.HassMap, entryId: string, api: ElectricKiwi.ApiClient)
    ensures AccountSource(ElectricKiwi.Register(data, entryId, ElectricKiwi.EmptyDict)[ElectricKiwi.DOMAIN][entryId])
            == Failure(AttributeError)
    ensures AccountSource(ElectricKiwi.Register(data, entryId, ElectricKiwi.Client(api))[ElectricKiwi.DOMAIN][entryId])
            == Success(api)
  {
  }

  /** The sensor platform's `async_setup_entry`: build one data holder from the
      stored client, run exactly one update, then one sensor per description,
      all sharing that holder. `stored` is what entry setup put under the entry. */
  method AsyncSetupEntry(stored: ElectricKiwi.RegistryValue, firstFetch: FetchResult)
    returns (r: Result<seq<AccountSensor>, PlatformSetupError>)
    ensures stored.EmptyDict? ==> r == Failure(AttributeError)
    ensures stored.Client? && RaisedBy(firstFetch).Some? ==> r == Failure(UpdateFailed(RaisedBy(firstFetch).value))
    ensures r.Success? <==> stored.Client? && RaisedBy(firstFetch).None?
    ensures r.Success? ==>
              |r.value| == |SENSOR_TYPES| &&
              (forall i :: 0 <= i < |r.value| ==> r.value[i].description == SENSOR_TYPES[i]) &&
              (forall i :: 0 <= i < |r.value| ==> r.value[i].data == r.value[0].data)
    ensures r.Success? ==>
              fresh(r.value[0].data) &&
              r.value[0].data.customerNumber == stored.api.customerNumber &&
              r.value[0].data.connectionId == stored.api.connectionId &&
              r.value[0].data.balance == NextBalance(INITIAL_BALANCE, firstFetch)
  {
    var source := AccountSource(stored);
    if source.Failure? {
      return Failure(source.error);
    }
    var holder := new AccountData(source.value);
    var raised := holder.AsyncUpdate(firstFetch);
    if raised.Some? {
      return Failure(UpdateFailed(raised.value));
    }
    var sensors: seq<AccountSensor> := [];
    var i := 0;
    while i < |SENSOR_TYPES|
      invariant 0 <= i <= |SENSOR_TYPES| && |sensors| == i
      invariant forall k :: 0 <= k < i ==> sensors[k].description == SENSOR_TYPES[k] && sensors[k].data == holder
      invariant holder.balance == NextBalance(INITIAL_BALANCE, firstFetch)
    {
      var sensor := new AccountSensor(holder, SENSOR_TYPES[i]);
      sensors := sensors + [sensor];
      i := i + 1;
    }
    return Success(sensors);
  }
}
