/** The lookup-priority rule of `find` in backend/src/routes/customer.rs.
    The three queries are one oracle, `lookup`, from a lookup key to the
    customer or a query error. */
module CustomerRoutes {
  import opened Wrappers
  import opened Http

  /** A Postgres `INTEGER` (Rust `i32`). */
  type I32 = x: int | -0x8000_0000 <= x < 0x8000_0000

  /** `LookUpForm`: any of the three keys may be given. */
  datatype LookUpForm = LookUpForm(email: Option<string>, ip: Option<string>, id: Option<I32>)

  /** A `customers` row. */
  datatype Customer = Customer(
    id: I32, email: string, firstName: Option<string>, lastName: Option<string>, ip: Option<string>)

  /** The query `find` runs: by email, by IP, or by id. */
  datatype Lookup = ByEmail(email: string) | ByIp(ip: string) | ById(id: I32)

  datatype Body = Text(text: string) | CustomerJson(customer: Customer)

  const NO_CLIENT := "unable to get postgres client"
  const NOT_FOUND := "customer not found"
  const NO_KEY := "please enter a valid lookup value [email | ip]"

  /** The match on `(email, ip, id)`: the email wins over everything, the IP
      is used only without an email, the id only without both; no key
      selects no query. */
  function SelectLookup(form: LookUpForm): (l: Option<Lookup>)
    ensures form.email.Some? ==> l == Some(ByEmail(form.email.value))
    ensures form.email.None? && form.ip.Some? ==> l == Some(ByIp(form.ip.value))
    ensures form.email.None? && form.ip.None? && form.id.Some? ==> l == Some(ById(form.id.value))
    ensures l.None? <==> form.email.None? && form.ip.None? && form.id.None?
  {
    match (form.email, form.ip, form.id)
    case (Some(email), _, _) => Some(ByEmail(email))
    case (_, Some(ip), _) => Some(ByIp(ip))
    case (_, _, Some(id)) => Some(ById(id))
    case _ => None
  }

  /** `find`: get a client, select the query, run it.  Every failure is 500. */
  function Find(poolOk: bool, form: LookUpForm, lookup: Lookup -> Result<Customer, string>)
    : (r: Response<Body>)
    ensures r.status == Ok200 <==> poolOk && SelectLookup(form).Some? && lookup(SelectLookup(form).value).Ok?
    ensures r.status == Ok200 ==> r.body == CustomerJson(lookup(SelectLookup(form).value).value)
    ensures r.status != Ok200 ==> r.status == InternalError500
  {
    if !poolOk then Response(InternalError500, Text(NO_CLIENT))
    else
      match SelectLookup(form)
      case None => Response(InternalError500, Text(NO_KEY))
      case Some(key) =>
        match lookup(key)
        case Ok(customer) => Response(Ok200, CustomerJson(customer))
        case Err(_) => Response(InternalError500, Text(NOT_FOUND))
  }

  /** With an email given, the IP and the id play no part. */
  lemma EmailTakesPriority(
    poolOk: bool, form: LookUpForm, ip: Option<string>, id: Option<I32>,
    lookup: Lookup -> Result<Customer, string>)
    requires form.email.Some?
    ensures Find(poolOk, form, lookup) == Find(poolOk, LookUpForm(form.email, ip, id), lookup)
  {
  }

  /** Without an email and with an IP, the id plays no part. */
  lemma IpBeforeId(
    poolOk: bool, form: LookUpForm, id: Option<I32>, lookup: Lookup -> Result<Customer, string>)
    requires form.email.None? && form.ip.Some?
    ensures Find(poolOk, form, lookup) == Find(poolOk, LookUpForm(None, form.ip, id), lookup)
  {
  }

  /** A pool failure is answered before any query: the answer is the same
      whatever the queries would return. */
  lemma PoolFailureBeforeLookup(
    form: LookUpForm, lookup1: Lookup -> Result<Customer, string>,
    lookup2: Lookup -> Result<Customer, string>)
    ensures Find(false, form, lookup1) == Response(InternalError500, Text(NO_CLIENT))
    ensures Find(false, form, lookup1) == Find(false, form, lookup2)
  {
  }

  /** With no key the request is refused without a query. */
  lemma NoKeyNoLookup(
    lookup1: Lookup -> Result<Customer, string>, lookup2: Lookup -> Result<Customer, string>)
    ensures Find(true, LookUpForm(None, None, None), lookup1) == Response(InternalError500, Text(NO_KEY))
    ensures Find(true, LookUpForm(None, None, None), lookup1) ==
            Find(true, LookUpForm(None, None, None), lookup2)
  {
  }

  /** A failed query is reported as "customer not found", whichever query
      it was and whatever the error. */
  lemma FailedLookupIsNotFound(
    form: LookUpForm, lookup: Lookup -> Result<Customer, string>)
    requires SelectLookup(form).Some? && lookup(SelectLookup(form).value).Err?
    ensures Find(true, form, lookup) == Response(InternalError500, Text(NOT_FOUND))
  {
  }
}
