/** The request checks of the sales microservice's HTTP handlers. Each handler
    either answers with an error status or passes the checked values on to the
    service. */
module SalesApi {
  import opened Wrappers
  import opened Http
  import opened Text
  import opened Receipts
  import opened Storages

  // ---- POST /sales/process ----

  datatype SaleRequest = SaleRequest(
    perfumeSerialNumber: Option<string>,
    quantity: Option<int>,
    saleType: Option<string>,
    paymentMethod: Option<string>,
    sellerId: Option<int>,
    userRole: Option<string>)

  /** The arguments `processSale` hands to the sales service. */
  datatype SaleCall = SaleCall(
    serial: string, quantity: int, saleType: string, paymentMethod: string,
    sellerId: Option<int>, userRole: string)

  datatype SaleRejection = MissingSaleFields | InvalidSaleType | InvalidPaymentMethod | NonPositiveQuantity

  function SaleRejectionMessage(r: SaleRejection, saleTypes: seq<string>, paymentMethods: seq<string>): string
  {
    match r
    case MissingSaleFields => "Missing required fields: perfumeSerialNumber, quantity, saleType, paymentMethod"
    case InvalidSaleType => "Invalid sale type. Must be one of: " + Join(saleTypes, ", ")
    case InvalidPaymentMethod => "Invalid payment method. Must be one of: " + Join(paymentMethods, ", ")
    case NonPositiveQuantity => "Quantity must be greater than 0"
  }

  /** `sellerId || null`: a zero seller id is dropped as well. */
  function DefaultSeller(sellerId: Option<int>): Option<int>
  {
    if TruthyNumber(sellerId) then sellerId else None
  }

  /** `userRole || "SELLER"`. */
  function DefaultRole(userRole: Option<string>): string
  {
    if Truthy(userRole) then userRole.value else "SELLER"
  }

  /** `processSale`'s checks, in order; `saleTypes` and `paymentMethods` are the
      values of the two enums. The first failing check decides the answer; a
      quantity of 0 counts as missing. */
  function ValidateSale(req: SaleRequest, saleTypes: seq<string>, paymentMethods: seq<string>)
    : (r: Reply<SaleRejection, SaleCall>)
    ensures r.Reject? ==> r.status == 400
    ensures var present := Truthy(req.perfumeSerialNumber) && TruthyNumber(req.quantity)
                           && Truthy(req.saleType) && Truthy(req.paymentMethod);
      && (r == Reject(400, MissingSaleFields) <==> !present)
      && (r == Reject(400, InvalidSaleType) <==> present && req.saleType.value !in saleTypes)
      && (r == Reject(400, InvalidPaymentMethod) <==>
            present && req.saleType.value in saleTypes && req.paymentMethod.value !in paymentMethods)
      && (r == Reject(400, NonPositiveQuantity) <==>
            present && req.saleType.value in saleTypes && req.paymentMethod.value in paymentMethods
            && req.quantity.value < 0)
      && (r.Pass? <==>
            present && req.saleType.value in saleTypes && req.paymentMethod.value in paymentMethods
            && req.quantity.value > 0)
    ensures r.Pass? ==> r.status == 201 && r.value == SaleCall(req.perfumeSerialNumber.value, req.quantity.value,
                                            req.saleType.value, req.paymentMethod.value,
                                            DefaultSeller(req.sellerId), DefaultRole(req.userRole))
  {
    if !Truthy(req.perfumeSerialNumber) || !TruthyNumber(req.quantity) || !Truthy(req.saleType)
       || !Truthy(req.paymentMethod) then
      Reject(400, MissingSaleFields)
    else if req.saleType.value !in saleTypes then
      Reject(400, InvalidSaleType)
    else if req.paymentMethod.value !in paymentMethods then
      Reject(400, InvalidPaymentMethod)
    else if req.quantity.value <= 0 then
      Reject(400, NonPositiveQuantity)
    else
      Pass(201, SaleCall(req.perfumeSerialNumber.value, req.quantity.value, req.saleType.value,
                    req.paymentMethod.value, DefaultSeller(req.sellerId), DefaultRole(req.userRole)))
  }

  // ---- GET /sales/receipts/:id and GET /storages/:id ----

  datatype LookupRejection = InvalidId | NotFound(id: int)

  /** `getReceiptById`: `id` is what `parseInt` made of the path parameter
      (None for NaN). 400 for NaN, 404 for an unknown id, otherwise the receipt. */
  function GetReceiptById(id: Option<int>, receipts: seq<FiscalReceipt>)
    : (r: Reply<LookupRejection, FiscalReceipt>)
    ensures r == Reject(400, InvalidId) <==> id.None?
    ensures r.Reject? && r.status == 404 <==>
      id.Some? && forall i :: 0 <= i < |receipts| ==> receipts[i].id != id.value
    ensures r.Reject? && r.status == 404 ==> r.reason == NotFound(id.value)
    ensures r.Pass? ==> r.status == 200 && id.Some? && r.value in receipts && r.value.id == id.value
  {
    if id.None? then Reject(400, InvalidId)
    else match FindById(receipts, id.value)
      case None => Reject(404, NotFound(id.value))
      case Some(receipt) => Pass(200, receipt)
  }

  /** `getStorageById`: the same three answers for storages. */
  function GetStorageById(id: Option<int>, rows: seq<Storage>): (r: Reply<LookupRejection, Storage>)
    ensures r == Reject(400, InvalidId) <==> id.None?
    ensures r.Reject? && r.status == 404 <==>
      id.Some? && forall i :: 0 <= i < |rows| ==> rows[i].id != id.value
    ensures r.Pass? ==> r.status == 200 && id.Some? && r.value in rows && r.value.id == id.value
  {
    if id.None? then Reject(400, InvalidId)
    else match IndexOfId(rows, id.value)
      case None => Reject(404, NotFound(id.value))
      case Some(k) => Pass(200, rows[k])
  }

  // ---- POST /storages ----

  datatype StorageRequest = StorageRequest(
    name: Option<string>, location: Option<string>, maxCapacity: Option<int>, kind: Option<StorageType>)

  datatype StorageRejection = MissingStorageFields | NonPositiveMaxCapacity

  /** `createStorage`'s checks. A valid request creates an empty storage; with no
      type given the column default, a warehouse, applies. The id is generated
      on save. */
  function ValidateCreateStorage(req: StorageRequest): (r: Reply<StorageRejection, Storage>)
    ensures r.Reject? ==> r.status == 400
    ensures r == Reject(400, MissingStorageFields) <==>
      !Truthy(req.name) || !Truthy(req.location) || !TruthyNumber(req.maxCapacity)
    ensures r.Pass? <==> Truthy(req.name) && Truthy(req.location) && req.maxCapacity.Some?
                         && req.maxCapacity.value > 0
    ensures r.Pass? ==>
      && r.status == 201
      && r.value.name == req.name.value && r.value.location == req.location.value
      && r.value.maxCapacity == req.maxCapacity.value && r.value.currentCapacity == 0
      && r.value.kind == (if req.kind.Some? then req.kind.value else WarehouseCenter)
  {
    if !Truthy(req.name) || !Truthy(req.location) || !TruthyNumber(req.maxCapacity) then
      Reject(400, MissingStorageFields)
    else if req.maxCapacity.value <= 0 then
      Reject(400, NonPositiveMaxCapacity)
    else
      var kind := if req.kind.Some? then req.kind.value else WarehouseCenter;
      Pass(201, Storage(0, req.name.value, req.location.value, req.maxCapacity.value, 0, kind))
  }

  // ---- PUT /storages/:id/capacity ----

  /** The `increment` body field: absent, not a number, or a number. */
  datatype Increment = Undefined | NotANumber | Number(value: int)

  datatype CapacityRejection = InvalidStorageId | InvalidIncrement

  function ValidateCapacityUpdate(id: Option<int>, increment: Increment)
    : (r: Reply<CapacityRejection, (int, int)>)
    ensures r.Reject? ==> r.status == 400
    ensures r == Reject(400, InvalidStorageId) <==> id.None?
    ensures r == Reject(400, InvalidIncrement) <==> id.Some? && !increment.Number?
    ensures r.Pass? <==> id.Some? && increment.Number?
    ensures r.Pass? ==> r.status == 200 && r.value == (id.value, increment.value)
  {
    if id.None? then Reject(400, InvalidStorageId)
    else if !increment.Number? then Reject(400, InvalidIncrement)
    else Pass(200, (id.value, increment.value))
  }

  // ---- POST /storages/send-packaging ----

  datatype DispatchRejection = NonPositivePackages | MissingRole

  function ValidateSendPackaging(numberOfPackages: Option<int>, userRole: Option<string>)
    : (r: Reply<DispatchRejection, (int, string)>)
    ensures r.Reject? ==> r.status == 400
    ensures r == Reject(400, NonPositivePackages) <==>
      numberOfPackages.None? || numberOfPackages.value <= 0
    ensures r == Reject(400, MissingRole) <==>
      numberOfPackages.Some? && numberOfPackages.value > 0 && !Truthy(userRole)
    ensures r.Pass? ==> r.value.0 > 0 && r.value.1 != ""
    ensures r.Pass? ==> r.status == 200 && r.value == (numberOfPackages.value, userRole.value)
  {
    if !TruthyNumber(numberOfPackages) || numberOfPackages.value <= 0 then Reject(400, NonPositivePackages)
    else if !Truthy(userRole) then Reject(400, MissingRole)
    else Pass(200, (numberOfPackages.value, userRole.value))
  }
}
