/** The six fixed status messages of the mutation calls and the banner
    rule that colours them: a message reads as a success when it includes
    the word "berhasil" ("succeeded"). */
module Messages {
  import opened Text

  const SuccessWord := "berhasil"

  const Created := "Data berhasil Dimasukkan"
  const CreateFailed := "Terjadi Kesalahan Dalam Mengirim Data, Harap Di Cek Kembali!!!"
  const Deleted := "Data berhasil dihapus"
  const DeleteFailed := "Gagal menghapus data"
  const Updated := "Data berhasil diperbarui"
  const UpdateFailed := "Gagal memperbarui data"

  /** The banner test: green when the message includes "berhasil" */
  predicate MarksSuccess(message: string) {
    Includes(message, SuccessWord)
  }

  /** Each success message carries the word, right after "Data ". */
  lemma SuccessMessagesMarkSuccess()
    ensures MarksSuccess(Created)
    ensures MarksSuccess(Deleted)
    ensures MarksSuccess(Updated)
  {
    assert OccursAt(Created, SuccessWord, 5);
    assert OccursAt(Deleted, SuccessWord, 5);
    assert OccursAt(Updated, SuccessWord, 5);
  }

  /** The failure messages do not carry the word.  An occurrence of
      "berhasil" at `i` puts an 'h' at `i + 3`; the only 'h' of each failure
      message sits where the letter three places before it is not 'b'. */
  lemma FailureMessagesMarkFailure()
    ensures !MarksSuccess(CreateFailed)
    ensures !MarksSuccess(DeleteFailed)
    ensures !MarksSuccess(UpdateFailed)
  {
    if MarksSuccess(CreateFailed) {
      var i :| 0 <= i <= |CreateFailed| - |SuccessWord| && OccursAt(CreateFailed, SuccessWord, i);
      OccurrenceChar(CreateFailed, SuccessWord, i, 3);
      OnlyHOfCreateFailed(i + 3);
      OccurrenceChar(CreateFailed, SuccessWord, i, 0);
      assert false;
    }
    if MarksSuccess(DeleteFailed) {
      var i :| 0 <= i <= |DeleteFailed| - |SuccessWord| && OccursAt(DeleteFailed, SuccessWord, i);
      OccurrenceChar(DeleteFailed, SuccessWord, i, 3);
      OnlyHOfDeleteFailed(i + 3);
      OccurrenceChar(DeleteFailed, SuccessWord, i, 0);
      assert false;
    }
    if MarksSuccess(UpdateFailed) {
      var i :| 0 <= i <= |UpdateFailed| - |SuccessWord| && OccursAt(UpdateFailed, SuccessWord, i);
      OccurrenceChar(UpdateFailed, SuccessWord, i, 3);
      NoHInUpdateFailed(i + 3);
      assert false;
    }
  }

  /** The one 'h' of the create-failure message, in "Kesalahan".  The
      message is taken in two halves so that the solver can enumerate
      positions. */
  lemma OnlyHOfCreateFailed(j: int)
    requires 0 <= j < |CreateFailed| && CreateFailed[j] == 'h'
    ensures j == 14 && CreateFailed[11] == 'a'
  {
    CreateFailedHalves();
    if j < |CreateFailedFront| {
      OnlyHOfFront(j);
    } else {
      NoHInBack(j - |CreateFailedFront|);
    }
  }

  const CreateFailedFront := "Terjadi Kesalahan Dalam Mengirim"
  const CreateFailedBack := " Data, Harap Di Cek Kembali!!!"

  lemma CreateFailedHalves()
    ensures CreateFailed == CreateFailedFront + CreateFailedBack
  {
  }

  lemma OnlyHOfFront(j: int)
    requires 0 <= j < |CreateFailedFront| && CreateFailedFront[j] == 'h'
    ensures j == 14 && CreateFailedFront[11] == 'a'
  {
  }

  lemma NoHInBack(j: int)
    requires 0 <= j < |CreateFailedBack|
    ensures CreateFailedBack[j] != 'h'
  {
  }

  /** The one 'h' of the delete-failure message, in "menghapus" */
  lemma OnlyHOfDeleteFailed(j: int)
    requires 0 <= j < |DeleteFailed| && DeleteFailed[j] == 'h'
    ensures j == 10 && DeleteFailed[7] == 'e'
  {
  }

  /** The update-failure message has no 'h' at all. */
  lemma NoHInUpdateFailed(j: int)
    requires 0 <= j < |UpdateFailed|
    ensures UpdateFailed[j] != 'h'
  {
  }
}
