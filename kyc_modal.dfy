/**
 * The identity-verification sheet: BVN and names, submitted for verification. A BVN that is not
 * eleven characters long is refused before any request.
 */
module KycModal {
  import opened Wrappers
  import opened Text

  /** The length a BVN must have. */
  const BvnLength := 11

  /** The verification result record. */
  datatype VerifyResult = VerifyResult(success: bool, error: string)

  /** The verification request: BVN, first name, last name. */
  datatype BvnCall = BvnCall(bvn: string, firstName: string, lastName: string)

  datatype Form = Form(bvn: string, firstName: string, lastName: string, isLoading: bool, errorMessage: string)

  const Initial := Form("", "", "", false, "")

  /** The submit button's condition. */
  predicate SubmitEnabled(f: Form) {
    |f.bvn| == BvnLength && f.firstName != "" && f.lastName != ""
  }

  /** The request `handleSubmit` sends, or None when the BVN length is wrong. */
  function SubmitCall(f: Form): (c: Option<BvnCall>)
    ensures c.Some? <==> |f.bvn| == BvnLength
    ensures c.Some? ==> c.value == BvnCall(f.bvn, f.firstName, f.lastName)
  {
    if |f.bvn| != BvnLength then None else Some(BvnCall(f.bvn, f.firstName, f.lastName))
  }

  /** `handleSubmit`'s new state. */
  function AfterSubmit(f: Form, r: VerifyResult): (g: Form)
    ensures g.bvn == f.bvn && g.firstName == f.firstName && g.lastName == f.lastName
  {
    if SubmitCall(f).None? then f.(errorMessage := "BVN must be exactly 11 digits")
    else if r.success then f.(isLoading := false, errorMessage := "")
    else f.(errorMessage := r.error, isLoading := false)
  }

  /** Whether `handleSubmit` calls `onClose`: only after a verification that succeeded. */
  function SubmitCloses(f: Form, r: VerifyResult): bool {
    SubmitCall(f).Some? && r.success
  }

  /** The BVN input keeps at most eleven digits and nothing else. */
  function BvnInput(text: string): (bvn: string)
    ensures AllDigits(bvn) && |bvn| <= BvnLength
    ensures AllDigits(text) && |text| <= BvnLength ==> bvn == text
  {
    KeepDigits(Take(text, BvnLength))
  }

  /** A BVN of another length gives the fixed error, no request and no close. */
  lemma WrongLengthRefused(f: Form, r: VerifyResult)
    requires |f.bvn| != BvnLength
    ensures SubmitCall(f) == None && !SubmitCloses(f, r)
    ensures AfterSubmit(f, r) == f.(errorMessage := "BVN must be exactly 11 digits")
  {
  }

  /** An enabled submit always sends the request. */
  lemma EnabledSubmitCalls(f: Form)
    requires SubmitEnabled(f)
    ensures SubmitCall(f) == Some(BvnCall(f.bvn, f.firstName, f.lastName))
  {
  }

  /** After a request, loading is off either way; success closes the sheet, failure shows the server's error. */
  lemma SubmitOutcome(f: Form, r: VerifyResult)
    requires SubmitCall(f).Some?
    ensures !AfterSubmit(f, r).isLoading
    ensures r.success ==> SubmitCloses(f, r) && AfterSubmit(f, r).errorMessage == ""
    ensures !r.success ==> !SubmitCloses(f, r) && AfterSubmit(f, r).errorMessage == r.error
  {
  }

  class KycModal {
    var bvn: string
    var firstName: string
    var lastName: string
    var isLoading: bool
    var errorMessage: string

    function Snapshot(): Form
      reads this
    {
      Form(bvn, firstName, lastName, isLoading, errorMessage)
    }

    constructor ()
      ensures Snapshot() == Initial
    {
      bvn, firstName, lastName, isLoading, errorMessage := "", "", "", false, "";
    }

    method SetFirstName(text: string)
      modifies this
      ensures Snapshot() == old(Snapshot()).(firstName := text)
    {
      firstName := text;
    }

    method SetLastName(text: string)
      modifies this
      ensures Snapshot() == old(Snapshot()).(lastName := text)
    {
      lastName := text;
    }

    method SetBvn(text: string)
      modifies this
      ensures Snapshot() == old(Snapshot()).(bvn := BvnInput(text))
    {
      bvn := KeepDigits(Take(text, 11));
    }

    /** `handleSubmit`; returns the request it sends, if any, and whether it calls `onClose`. */
    method HandleSubmit(r: VerifyResult) returns (call: Option<BvnCall>, closed: bool)
      requires !isLoading
      modifies this
      ensures call == SubmitCall(old(Snapshot()))
      ensures closed == SubmitCloses(old(Snapshot()), r)
      ensures Snapshot() == AfterSubmit(old(Snapshot()), r)
    {
      if |bvn| != 11 {
        errorMessage := "BVN must be exactly 11 digits";
        return None, false;
      }
      isLoading := true;
      errorMessage := "";
      call := Some(BvnCall(bvn, firstName, lastName));
      if r.success {
        isLoading := false;
        closed := true;
      } else {
        errorMessage := r.error;
        isLoading := false;
        closed := false;
      }
    }
  }
}
