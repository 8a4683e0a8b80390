/** The application paths the core navigates to or matches against. */
module Routes {
  /** The home page: where the charging modal's close button leads. */
  const HomePath: string := "/"
  /** The charging detail route `/charging-detail/:id`, up to its `:id`. */
  const DetailRoute: string := "/charging-detail/"
  /** The QR scanner page, where the detail page's scan prompt leads. */
  const ScanPath: string := "/qr-scan"
}
