/**
 * The transaction history view (`TransactionsHistoryComponent`): a
 * delete-confirmation modal and a toast line. Deletions are requests to the
 * repository's `delete`, recorded in order in `deleteRequests`.
 */
module TransactionsHistory {
  import opened Wrappers

  const CopiedMessage: string := "CUS copiado."

  /** The id `confirmDelete` forwards: the pending id when it is truthy, i.e. present and non-empty. */
  function DeleteTarget(pending: Option<string>): (target: Option<string>)
    ensures target.Some? <==> pending.Some? && pending.value != ""
    ensures target.Some? ==> target == pending
  {
    if pending.Some? && pending.value != "" then pending else None
  }

  class TransactionsHistory {
    var toastMessage: Option<string>
    var showDeleteModal: bool
    var transactionToDelete: Option<string>
    /** The ids passed to the repository's `delete`, oldest first. */
    var deleteRequests: seq<string>

    constructor()
      ensures toastMessage == None && !showDeleteModal && transactionToDelete == None
      ensures deleteRequests == []
    {
      toastMessage := None;
      showDeleteModal := false;
      transactionToDelete := None;
      deleteRequests := [];
    }

    /** `openDeleteModal(id)`: remembers the id and shows the modal. */
    method OpenDeleteModal(id: string)
      modifies this`transactionToDelete, this`showDeleteModal
      ensures transactionToDelete == Some(id) && showDeleteModal
    {
      transactionToDelete := Some(id);
      showDeleteModal := true;
    }

    /** `confirmDelete()`: requests deletion of a truthy pending id, then closes the modal. */
    method ConfirmDelete()
      modifies this`transactionToDelete, this`showDeleteModal, this`deleteRequests
      ensures !showDeleteModal && transactionToDelete == None
      ensures var target := DeleteTarget(old(transactionToDelete));
        deleteRequests == old(deleteRequests) + (if target.Some? then [target.value] else [])
    {
      if transactionToDelete.Some? && transactionToDelete.value != "" {
        deleteRequests := deleteRequests + [transactionToDelete.value];
      }
      CloseModal();
    }

    /** `closeModal()`: hides the modal and forgets the pending id, deleting nothing. */
    method CloseModal()
      modifies this`transactionToDelete, this`showDeleteModal
      ensures !showDeleteModal && transactionToDelete == None
    {
      showDeleteModal := false;
      transactionToDelete := None;
    }

    /** `deleteTransaction(id)`: forwards the id as it is, whatever the modal shows. */
    method DeleteTransaction(transactionId: string)
      modifies this`deleteRequests
      ensures deleteRequests == old(deleteRequests) + [transactionId]
    {
      deleteRequests := deleteRequests + [transactionId];
    }

    /** `showToast(message)`: shows the message. */
    method ShowToast(message: string)
      modifies this`toastMessage
      ensures toastMessage == Some(message)
    {
      toastMessage := Some(message);
    }

    /** `copyCus(cus)`: announces the copy in the toast. */
    method CopyCus(cus: string)
      modifies this`toastMessage
      ensures toastMessage == Some(CopiedMessage)
    {
      ShowToast(CopiedMessage);
    }
  }
}
