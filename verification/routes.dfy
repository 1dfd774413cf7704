/** What a view hands back to the framework, kept abstract: the named route it
    reverses or redirects to (with its argument), a rendered form, or the
    error page with its message. */
module Routes {

  datatype Route =
    | BoxScanned(number: string)
    | BoxNew(boxNumber: string)
    | BoxDetails(pk: nat)
    | BuildPallet(pk: nat)
    | BuildPalletAddBox(pk: nat)

  datatype Outcome =
    | ErrorPage(message: string)
    | RenderForm
    | Redirect(to: Route)
}
