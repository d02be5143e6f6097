/** The record types shared by the views. */
module Types {

  /** A catalogue entry of the academic hub. */
  datatype AcademicPaper = AcademicPaper(
    id: string,
    title: string,
    authors: seq<string>,
    journal: string,
    year: int,
    paperAbstract: string)

}
