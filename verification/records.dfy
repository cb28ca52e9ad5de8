/** Rows of the three collections, as the components read and write them. */
module Records {
  import opened Service

  /** A row of `donations`. `donationType` is the column `type`
      ("umum" for a general donation). */
  datatype Donation = Donation(
    id: string,
    name: string,
    email: string,
    amount: int,
    createdAt: string,
    donationType: string,
    status: string,
    paymentMethod: Option<string>)

  /** A row of `kakasaku_members`; `paymentStatus` is "lunas" (paid) or
      "belum" (not yet paid), though the column admits any text. */
  datatype Member = Member(
    id: string,
    name: string,
    email: string,
    phone: string,
    monthlyAmount: int,
    paymentStatus: string,
    dueDate: string)

  /** A row of `programs`; description and category may be null. */
  datatype Program = Program(
    id: string,
    title: string,
    description: Option<string>,
    target: int,
    raised: int,
    category: Option<string>,
    createdAt: Option<string>)

  const Paid := "lunas"
  const Unpaid := "belum"
  const GeneralType := "umum"
}
