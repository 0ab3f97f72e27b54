/** The payment section: the bill and the remaining payment it shows, and the
    wallet, amount, date and attachment inputs. */
module PaymentSection {

  import opened OrderRecord
  import opened Totals
  import opened Edits
  import opened SharedForm

  /** `calculateTotalAmount()`, the total bill. */
  function CalculateTotalAmount(state: FormCell): (r: int)
    reads state
    ensures r == TotalBillSpec(state.formData)
  {
    Totals.CalculateTotalAmount(state.formData)
  }

  /** `remainingPayment`: negative on overpayment, positive while money is due. */
  function RemainingPayment(state: FormCell): (r: int)
    reads state
    ensures r == TotalBillSpec(state.formData) - state.formData.paymentAmount
    ensures r < 0 <==> state.formData.paymentAmount > TotalBillSpec(state.formData)
  {
    CalculateTotalAmount(state) - state.formData.paymentAmount
  }

  method HandleFileUpload(state: FormCell, file: FileHandle, slot: FileSlot)
    modifies state
    ensures state.formData == AttachFile(old(state.formData), file, slot)
  {
    state.formData := AttachFile(state.formData, file, slot);
  }

  /** The wallet select writes the method name it shows. */
  method SetWallet(state: FormCell, name: string)
    modifies state
    ensures state.formData == ApplyField(old(state.formData), WalletChoice(WalletName(name)))
  {
    state.formData := ApplyField(state.formData, WalletChoice(WalletName(name)));
  }

  /** The payment amount input; the bill stays, what remains follows the amount. */
  method SetPaymentAmount(state: FormCell, amount: int)
    modifies state
    ensures state.formData == ApplyField(old(state.formData), PaymentAmount(amount))
    ensures RemainingPayment(state) == TotalBillSpec(old(state.formData)) - amount
  {
    state.formData := ApplyField(state.formData, PaymentAmount(amount));
  }

  method SetPaymentDate(state: FormCell, date: string)
    modifies state
    ensures state.formData == ApplyField(old(state.formData), PaymentDate(date))
  {
    state.formData := ApplyField(state.formData, PaymentDate(date));
  }
}
