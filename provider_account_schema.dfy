/** Request rules for provider accounts
    (backend/validations/providerAccountSchema.js). */
module ProviderAccountSchema {

  import opened Base
  import Text
  import Keys

  predicate IsHexChar(c: char)
  {
    '0' <= c <= '9' || 'a' <= c <= 'f' || 'A' <= c <= 'F'
  }

  /** `/^[0-9a-fA-F]{24}$/`: the textual form of an ObjectId. */
  predicate IsObjectIdString(s: string)
  {
    |s| == 24 && forall i :: 0 <= i < |s| ==> IsHexChar(s[i])
  }

  datatype CreateBody = CreateBody(provider: string, businessName: string, merchantId: string, vpa: string,
                                   isDefault: Option<bool>)

  /** `createProviderAccountSchema`. */
  predicate CreateOk(b: CreateBody)
  {
    IsObjectIdString(b.provider) && |b.businessName| >= 1 && |b.merchantId| >= 1 && |b.vpa| >= 3
  }

  datatype UpdateBody = UpdateBody(businessName: Option<string>, merchantId: Option<string>, vpa: Option<string>,
                                   isDefault: Option<bool>)

  /** `updateProviderAccountSchema`: every body field optional, no bound on
      `merchantId`, and the path id an ObjectId string. */
  predicate UpdateOk(b: UpdateBody, id: string)
  {
    && (b.businessName.Some? ==> |b.businessName.value| >= 1)
    && (b.vpa.Some? ==> |b.vpa.value| >= 3)
    && IsObjectIdString(id)
  }

  /** The id check ignores letter case: a string passes exactly when its
      lower-cased form does. */
  lemma IdCheckIgnoresCase(s: string)
    ensures IsObjectIdString(s) <==> IsObjectIdString(Text.ToLower(s))
  {
    if IsObjectIdString(Text.ToLower(s)) {
      forall i | 0 <= i < |s|
        ensures IsHexChar(s[i])
      {
        assert IsHexChar(Text.ToLower(s)[i]);
      }
    }
  }

  /** Every ObjectId as the store prints it (12 bytes as 24 lower-case hex
      digits) passes the id check. */
  lemma PrintedIdsPass(bytes: seq<Keys.Byte>)
    requires |bytes| == 12
    ensures IsObjectIdString(Keys.HexEncode(bytes))
  {
  }

  /** An update may set `merchantId` to "", which the create rule refuses;
      the stored account requires a non-empty one, so such an update is
      refused only by the store. */
  lemma EmptyMerchantIdOnlyOnUpdate(id: string, provider: string, businessName: string, vpa: string)
    requires IsObjectIdString(id)
    ensures UpdateOk(UpdateBody(None, Some(""), None, None), id)
    ensures !CreateOk(CreateBody(provider, businessName, "", vpa, None))
  {
  }
}
