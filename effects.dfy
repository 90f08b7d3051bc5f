/**
 * What a form's submit handler does, as a trace: the API calls it makes, the
 * toasts it shows, whether it resets the form and whether it calls the
 * `onSuccess` callback. Each awaited API call is given as its settled result.
 */
module FormEffects {
  import opened Api

  /** The `mode` prop of both forms. */
  datatype Mode = CreateMode | EditMode

  /** A validation message the schema attaches to a field. */
  datatype FieldError = FieldError(field: string, message: string)

  /** A toast; `destructive` is the error variant. */
  datatype Toast = Toast(title: string, description: string, destructive: bool)

  datatype Effect =
    | Called(call: ApiCall)
    | Showed(toast: Toast)
    | ResetForm
    | NotifiedSuccess

  /** How an awaited promise settled: with a value, or by throwing an error with a message. */
  datatype Settled<T> = Resolved(value: T) | Rejected(message: string)

  function SuccessToast(description: string): (t: Toast)
    ensures t.title == "Sucesso" && t.description == description && !t.destructive
  {
    Toast("Sucesso", description, false)
  }

  /** `toast({ title: 'Erro', description: e.message || fallback, variant: 'destructive' })` */
  function ErrorToast(message: string, fallback: string): (t: Toast)
    ensures t.title == "Erro" && t.destructive
    ensures message != "" ==> t.description == message
    ensures message == "" ==> t.description == fallback
  {
    Toast("Erro", if message != "" then message else fallback, true)
  }

  /**
   * An awaited write and its report, as both forms' `onSubmit` run it: the call;
   * then, if it threw, the error toast (the `catch` block); otherwise the success
   * toast, the form reset when `resets`, and `onSuccess`.
   */
  function WriteTrace(call: ApiCall, write: Settled<()>, success: string, fallback: string, resets: bool): seq<Effect> {
    [Called(call)]
      + (if write.Rejected? then [Showed(ErrorToast(write.message, fallback))]
         else [Showed(SuccessToast(success))] + (if resets then [ResetForm] else []) + [NotifiedSuccess])
  }

  /**
   * A write makes exactly one call, shows exactly one toast, an error one exactly
   * when the write threw, and resets the form and calls `onSuccess` only when it
   * did not.
   */
  lemma WriteTraceOutcome(call: ApiCall, write: Settled<()>, success: string, fallback: string, resets: bool)
    ensures var e := WriteTrace(call, write, success, fallback, resets);
      e[0] == Called(call) && (forall i :: 1 <= i < |e| ==> !e[i].Called?)
      && (ResetForm in e <==> resets && write.Resolved?)
      && (NotifiedSuccess in e <==> write.Resolved?)
      && (forall i :: 0 <= i < |e| && e[i].Showed? ==> (e[i].toast.destructive <==> write.Rejected?))
      && (forall i, j :: 0 <= i < j < |e| && e[i].Showed? ==> !e[j].Showed?)
      && (write.Rejected? ==> Showed(ErrorToast(write.message, fallback)) in e)
      && (write.Resolved? ==> Showed(SuccessToast(success)) in e)
  {
    var e := WriteTrace(call, write, success, fallback, resets);
    if write.Rejected? {
      assert e == [Called(call), Showed(ErrorToast(write.message, fallback))];
    } else if resets {
      assert e == [Called(call), Showed(SuccessToast(success)), ResetForm, NotifiedSuccess];
    } else {
      assert e == [Called(call), Showed(SuccessToast(success)), NotifiedSuccess];
    }
  }

  /** Awaits one write inside the forms' `try`/`catch` and reports it. */
  method AwaitWrite(call: ApiCall, write: Settled<()>, success: string, fallback: string, resets: bool)
    returns (effects: seq<Effect>)
    ensures effects == WriteTrace(call, write, success, fallback, resets)
  {
    effects := [Called(call)];
    if write.Rejected? {
      effects := effects + [Showed(ErrorToast(write.message, fallback))];
      return;
    }
    effects := effects + [Showed(SuccessToast(success))];
    if resets {
      effects := effects + [ResetForm];
    }
    effects := effects + [NotifiedSuccess];
  }
}
