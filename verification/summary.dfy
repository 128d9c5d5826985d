/** The request summary the `receipts` handler sends to the administrator
    chat, and the per-user data map it is read from. */
module Summary {
  import opened Wrappers

  /** `context.user_data`: the per-user dictionary the handlers fill in. */
  type UserData = map<string, string>

  const FioKey := "fio"
  const BirthdateKey := "birthdate"
  const InnKey := "inn"
  const DeliveryKey := "delivery"
  const EmailKey := "email"

  /** Stands in for an e-mail address when the paper delivery was chosen,
      and is the default when none is stored. */
  const Placeholder := "—"

  /** The fields of the summary, in the order the message lists them. The
      sending time is not part of the model. */
  datatype Summary = Summary(
    fio: string,
    birthdate: string,
    inn: string,
    delivery: string,
    email: string,
    userId: int)

  /** The keys `receipts` reads with `data[...]`, which raises `KeyError`
      when one is missing. The e-mail is read with a default. */
  predicate HasRequiredFields(data: UserData) {
    FioKey in data && BirthdateKey in data && InnKey in data && DeliveryKey in data
  }

  /** The value of `data.get(key, "—")`. */
  function GetOrPlaceholder(data: UserData, key: string): (v: string)
    ensures key in data ==> v == data[key]
    ensures key !in data ==> v == Placeholder
  {
    if key in data then data[key] else Placeholder
  }

  /** Builds the summary, or `None` when one of the lookups would raise. */
  function BuildSummary(data: UserData, userId: int): (r: Option<Summary>)
    ensures r.Some? <==> HasRequiredFields(data)
    ensures r.Some? ==> r.value.userId == userId
    ensures r.Some? ==> r.value.fio == data[FioKey] && r.value.birthdate == data[BirthdateKey]
    ensures r.Some? ==> r.value.inn == data[InnKey] && r.value.delivery == data[DeliveryKey]
    ensures r.Some? ==> (EmailKey in data ==> r.value.email == data[EmailKey])
    ensures r.Some? ==> (EmailKey !in data ==> r.value.email == Placeholder)
  {
    if HasRequiredFields(data) then
      Some(Summary(data[FioKey], data[BirthdateKey], data[InnKey], data[DeliveryKey],
                   GetOrPlaceholder(data, EmailKey), userId))
    else
      None
  }
}
