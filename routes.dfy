/** The client's paths, shared by the shell's route table and the login page's redirect. */
module Routes {
  const LoginPath: string := "/login"
  const SignupPath: string := "/signup"
  const DashboardPath: string := "/dashboard"
  const RootPath: string := "/"
}
