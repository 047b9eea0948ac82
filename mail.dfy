/** An outgoing e-mail as the code hands it to the mail transport. */
module Mail {
  datatype Message = Message(to: string, subject: string, text: string)
}
