/** Keys of the Dapr state store: "<entity type>-<identity>", split again at the first hyphen. */
module StateKeys {
  import opened Wrappers
  import opened Text
  import Guids

  const KeySeparator: char := '-'

  /** Why `ParseKey` fails: `ArgumentException` (no separator) or `FormatException` (bad identity). */
  datatype KeyError = InvalidKeyFormat | InvalidIdentity

  function GetKey(entityType: string, entityId: Guids.Guid): (k: string)
    ensures |k| == |entityType| + 37
    ensures StartsWith(k, entityType) && k[|entityType|] == KeySeparator
    ensures Guids.TryParse(k[|entityType| + 1..]) == Some(entityId)
  {
    Guids.ParseFormat(entityId);
    var k := entityType + [KeySeparator] + Guids.Format(entityId);
    assert k[|entityType| + 1..] == Guids.Format(entityId);
    k
  }

  function EmployeeKey(id: Guids.Guid): string { GetKey("employee", id) }
  function TimeEntryKey(id: Guids.Guid): string { GetKey("timeentry", id) }
  function TaxInformationKey(id: Guids.Guid): string { GetKey("taxinformation", id) }
  function DeductionKey(id: Guids.Guid): string { GetKey("deduction", id) }

  /** The entity type is everything before the first separator, the identity everything after it. */
  function ParseKey(key: string): (r: Result<(string, Guids.Guid), KeyError>)
    ensures KeySeparator !in key <==> r == Err(InvalidKeyFormat)
    ensures r.Ok? ==>
      var (t, id) := r.value;
      KeySeparator !in t && |t| < |key| && StartsWith(key, t) && key[|t|] == KeySeparator
      && Guids.TryParse(key[|t| + 1..]) == Some(id)
    ensures r == Err(InvalidIdentity) ==>
      KeySeparator in key && Guids.TryParse(key[IndexOf(key, KeySeparator) + 1..]).None?
  {
    var i := IndexOf(key, KeySeparator);
    if i == -1 then Err(InvalidKeyFormat)
    else
      match Guids.TryParse(key[i + 1..])
      case None => Err(InvalidIdentity)
      case Some(id) => Ok((key[..i], id))
  }

  /** A key built from a hyphen-free entity type parses back to that type and identity. */
  lemma ParseGetKey(t: string, id: Guids.Guid)
    requires KeySeparator !in t
    ensures ParseKey(GetKey(t, id)) == Ok((t, id))
  {
    var k := GetKey(t, id);
    IndexOfAfterPrefix(t, KeySeparator, Guids.Format(id));
    assert k[..|t|] == t;
  }

  /** A hyphen inside the entity type is where the parse splits, so the type does not come back. */
  lemma ParseGetKeyHyphenated(t: string, id: Guids.Guid)
    requires KeySeparator in t
    ensures ParseKey(GetKey(t, id)).Ok? ==> ParseKey(GetKey(t, id)).value.0 != t
  {
  }

  /** The four typed helpers round-trip with their fixed prefixes. */
  lemma TypedKeysRoundTrip(id: Guids.Guid)
    ensures ParseKey(EmployeeKey(id)) == Ok(("employee", id))
    ensures ParseKey(TimeEntryKey(id)) == Ok(("timeentry", id))
    ensures ParseKey(TaxInformationKey(id)) == Ok(("taxinformation", id))
    ensures ParseKey(DeductionKey(id)) == Ok(("deduction", id))
  {
    EmployeeKeyRoundTrip(id);
    TimeEntryKeyRoundTrip(id);
    TaxInformationKeyRoundTrip(id);
    DeductionKeyRoundTrip(id);
  }

  lemma EmployeeKeyRoundTrip(id: Guids.Guid)
    ensures ParseKey(EmployeeKey(id)) == Ok(("employee", id))
  {
    ParseGetKey("employee", id);
  }

  lemma TimeEntryKeyRoundTrip(id: Guids.Guid)
    ensures ParseKey(TimeEntryKey(id)) == Ok(("timeentry", id))
  {
    ParseGetKey("timeentry", id);
  }

  lemma TaxInformationKeyRoundTrip(id: Guids.Guid)
    ensures ParseKey(TaxInformationKey(id)) == Ok(("taxinformation", id))
  {
    ParseGetKey("taxinformation", id);
  }

  lemma DeductionKeyRoundTrip(id: Guids.Guid)
    ensures ParseKey(DeductionKey(id)) == Ok(("deduction", id))
  {
    ParseGetKey("deduction", id);
  }
}
