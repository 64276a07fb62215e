/** The payment provider record (backend/models/PaymentProvider.js): a plain
    catalogue entry such as Paytm. */
module PaymentProviderModel {

  import opened Base

  datatype PaymentProvider = PaymentProvider(id: ObjectId, code: string, name: string, providerPhoto: Option<string>)

  /** `code` is unique across the catalogue; ids are distinct. */
  predicate ProvidersValid(providers: seq<PaymentProvider>)
  {
    forall i, j :: 0 <= i < j < |providers| ==> providers[i].id != providers[j].id && providers[i].code != providers[j].code
  }

  /** `populate("provider")`: the referenced provider, `null` when it is gone. */
  function FindProvider(providers: seq<PaymentProvider>, id: ObjectId): (r: Option<PaymentProvider>)
    ensures r.Some? ==> r.value in providers && r.value.id == id
    ensures r.None? ==> forall p :: p in providers ==> p.id != id
  {
    Find(providers, (p: PaymentProvider) => p.id == id)
  }
}
