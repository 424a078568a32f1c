/** `TiktalikAPIError`: the HTTP status of a failed call, the decoded body,
    and the server's description when the body is a dict. */
module Errors {
  import opened Common
  import opened Strings
  import opened Values

  datatype TiktalikApiError = TiktalikApiError(httpStatus: int, data: Value, description: Value)

  /** `TiktalikAPIError(http_status, data)`. A dict body without a
      `description` key raises `KeyError` in the constructor, so a dict body
      must carry one. */
  function NewApiError(httpStatus: int, data: Value := VNone): (e: TiktalikApiError)
    requires data.VDict? ==> "description" in data.fields
    ensures e.httpStatus == httpStatus && e.data == data
    ensures data.VDict? ==> e.description == data.fields["description"]
    ensures !data.VDict? ==> e.description == VNone
  {
    TiktalikApiError(httpStatus, data, if data.VDict? then data.fields["description"] else VNone)
  }

  /** `str(e)`: `"TiktalikAPIError: <status> <description>"`. */
  function Message(e: TiktalikApiError): string
    requires IsScalar(e.description)
  {
    "TiktalikAPIError:" + " " + IntToString(e.httpStatus) + " " + Str(e.description)
  }

  /** The message starts with the class name, its second word reads back
      as the HTTP status, and the words after it join back into the
      description. */
  lemma {:induction false} MessageStatus(e: TiktalikApiError)
    requires IsScalar(e.description)
    ensures var words := Split(Message(e), ' ');
      && |words| >= 3 && words[0] == "TiktalikAPIError:" && ParseInt(words[1]) == Some(e.httpStatus)
      && Join(words[2..], ' ') == Str(e.description)
  {
    var status := IntToString(e.httpStatus);
    var rest := status + " " + Str(e.description);
    assert Message(e) == "TiktalikAPIError:" + [' '] + rest;
    SplitAfter("TiktalikAPIError:", rest, ' ');
    assert ' ' !in status by {
      forall i | 0 <= i < |status| ensures status[i] != ' ' {
        assert IsDigit(status[i]) || status[i] == '-';
      }
    }
    assert rest == status + [' '] + Str(e.description);
    SplitAfter(status, Str(e.description), ' ');
    var words := Split(Message(e), ' ');
    assert words[2..] == Split(Str(e.description), ' ');
    IntRoundTrip(e.httpStatus);
  }
}
